/** Counting: sequences without repetitions, and sums of shares. */
module Finite {

  predicate Distinct(m: seq<nat>) {
    forall i, j :: 0 <= i < j < |m| ==> m[i] != m[j]
  }

  lemma {:induction false} Enumerate(x: set<nat>) returns (order: seq<nat>)
    ensures (forall t :: t in x <==> t in order) && Distinct(order)
  {
    if x == {} {
      order := [];
    } else {
      var t :| t in x;
      order := Enumerate(x - {t});
      order := order + [t];
    }
  }

  lemma Subset(x: set<nat>, y: set<nat>)
    requires x <= y
    ensures |x| <= |y|
  {
    assert y == x + (y - x);
  }

  lemma {:induction false} FitsIn(m: seq<nat>, x: set<nat>)
    requires Distinct(m) && forall i :: 0 <= i < |m| ==> m[i] in x
    ensures |m| <= |x|
  {
    if m != [] {
      var n := |m| - 1;
      forall i | 0 <= i < n ensures m[..n][i] in x - {m[n]} {
        assert m[i] != m[n];
      }
      FitsIn(m[..n], x - {m[n]});
    }
  }

  /** `x` chances at the price `n`, one of which has been used if `used`. */
  lemma Spent(n: nat, x: nat, x': nat, used: bool, own: nat, own': nat)
    requires own' < own && x' + (if used then 1 else 0) <= x
    ensures own' + n * x' + (if used then n else 0) < own + n * x
  {
    var d := if used then 1 else 0;
    assert n * (x - x' - d) >= 0;
    assert n * x == n * x' + n * d + n * (x - x' - d);
  }

  lemma Scaled(n: nat, x: nat, x': nat)
    requires x' <= x
    ensures n * x' <= n * x
  {
    assert n * x == n * x' + n * (x - x') && n * (x - x') >= 0;
  }
}
