/** Sums of integer sequences, used to count processes by weight. */
module Sums {

  function Sum(xs: seq<int>): int {
    if xs == [] then 0 else Sum(xs[..|xs| - 1]) + xs[|xs| - 1]
  }

  /** Changing one weight changes the sum by the difference. */
  lemma {:induction false} SumPoint(xs: seq<int>, ys: seq<int>, k: nat)
    requires |xs| == |ys| && k < |xs|
    requires forall i :: 0 <= i < |xs| && i != k ==> xs[i] == ys[i]
    ensures Sum(ys) == Sum(xs) - xs[k] + ys[k]
  {
    var n := |xs| - 1;
    if k == n {
      assert xs[..n] == ys[..n];
    } else {
      SumPoint(xs[..n], ys[..n], k);
    }
  }

  /** Raising weights does not lower the sum. */
  lemma {:induction false} SumMono(xs: seq<int>, ys: seq<int>)
    requires |xs| == |ys|
    requires forall i :: 0 <= i < |xs| ==> xs[i] <= ys[i]
    ensures Sum(xs) <= Sum(ys)
  {
    if xs != [] {
      SumMono(xs[..|xs| - 1], ys[..|ys| - 1]);
    }
  }

  /** Raising weights, one of them by at least `d`, raises the sum by at least `d`. */
  lemma SumBump(xs: seq<int>, ys: seq<int>, k: nat, d: int)
    requires |xs| == |ys| && k < |xs|
    requires forall i :: 0 <= i < |xs| && i != k ==> xs[i] <= ys[i]
    requires xs[k] + d <= ys[k]
    ensures Sum(xs) + d <= Sum(ys)
  {
    var zs := xs[k := ys[k]];
    SumPoint(xs, zs, k);
    SumMono(zs, ys);
  }

  /** Weights of at most one sum to at most the length. */
  lemma {:induction false} SumAtMostLength(xs: seq<int>)
    requires forall i :: 0 <= i < |xs| ==> 0 <= xs[i] <= 1
    ensures 0 <= Sum(xs) <= |xs|
  {
    if xs != [] {
      SumAtMostLength(xs[..|xs| - 1]);
    }
  }

  /** A pointwise bound by three weights bounds the sum by the three sums. */
  lemma {:induction false} SumSplit(xs: seq<int>, us: seq<int>, vs: seq<int>, ws: seq<int>)
    requires |xs| == |us| == |vs| == |ws|
    requires forall i :: 0 <= i < |xs| ==> xs[i] <= us[i] + vs[i] + ws[i]
    ensures Sum(xs) <= Sum(us) + Sum(vs) + Sum(ws)
  {
    if xs != [] {
      var n := |xs| - 1;
      SumSplit(xs[..n], us[..n], vs[..n], ws[..n]);
    }
  }

  lemma {:induction false} SumZero(xs: seq<int>)
    requires forall i :: 0 <= i < |xs| ==> xs[i] == 0
    ensures Sum(xs) == 0
  {
    if xs != [] {
      SumZero(xs[..|xs| - 1]);
    }
  }
}
