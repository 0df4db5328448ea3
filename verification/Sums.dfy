/** Sums of natural numbers under small changes, and sizes of subsets. */
module Sums {
  function Sum(xs: seq<nat>): nat {
    if |xs| == 0 then 0 else Sum(xs[..|xs| - 1]) + xs[|xs| - 1]
  }

  /** One entry falls by more than two, another may rise by two, the rest do not rise. */
  lemma {:induction false} SumFalls(xs: seq<nat>, ys: seq<nat>, t: int, w: int)
    requires |xs| == |ys|
    requires forall u | 0 <= u < |xs| && u != t && u != w :: ys[u] <= xs[u]
    requires 0 <= w < |xs| && w != t ==> ys[w] <= xs[w] + 2
    requires 0 <= t < |xs| ==> ys[t] + 3 <= xs[t]
    ensures Sum(ys) <= Sum(xs) + (if 0 <= w < |xs| && w != t then 2 else 0) - (if 0 <= t < |xs| then 3 else 0)
  {
    if |xs| > 0 {
      SumFalls(xs[..|xs| - 1], ys[..|xs| - 1], t, w);
    }
  }

  /** Entry t changes, the rest do not rise. */
  lemma {:induction false} SumOne(xs: seq<nat>, ys: seq<nat>, t: int)
    requires |xs| == |ys|
    requires forall u | 0 <= u < |xs| && u != t :: ys[u] <= xs[u]
    ensures 0 <= t < |xs| ==> Sum(ys) - ys[t] <= Sum(xs) - xs[t]
    ensures !(0 <= t < |xs|) ==> Sum(ys) <= Sum(xs)
  {
    if |xs| > 0 {
      SumOne(xs[..|xs| - 1], ys[..|xs| - 1], t);
    }
  }

  /** Entry t pays for the others rising by two each. */
  lemma {:induction false} SumPays(xs: seq<nat>, ys: seq<nat>, t: int)
    requires |xs| == |ys|
    requires forall u | 0 <= u < |xs| && u != t :: ys[u] <= xs[u] + 2
    ensures 0 <= t < |xs| ==> Sum(ys) - ys[t] <= Sum(xs) - xs[t] + 2 * (|xs| - 1)
    ensures !(0 <= t < |xs|) ==> Sum(ys) <= Sum(xs) + 2 * |xs|
  {
    if |xs| > 0 {
      SumPays(xs[..|xs| - 1], ys[..|xs| - 1], t);
    }
  }

  lemma SubsetSize(a: set<nat>, b: set<nat>)
    requires a <= b
    ensures |a| <= |b|
    ensures |a| == |b| ==> a == b
  {
    assert b == a + (b - a);
  }
}
