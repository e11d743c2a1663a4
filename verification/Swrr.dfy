/** Smooth weighted round robin on plain vectors: one selection round over the keys a mask admits.
    The scheduler's loop refines `Next` and `Best`; the fairness theorems are stated here. */
module Swrr {

  /** n times the amount x. */
  function Times(n: int, x: real): real {
    n as real * x
  }

  /** The sum of the first n entries. */
  function SumTo(xs: seq<real>, n: nat): real
    requires n <= |xs|
  {
    if n == 0 then 0.0 else SumTo(xs, n - 1) + xs[n - 1]
  }

  function Sum(xs: seq<real>): real {
    SumTo(xs, |xs|)
  }

  function Masked(xs: seq<real>, mask: seq<bool>): (r: seq<real>)
    requires |xs| == |mask|
    ensures |r| == |xs|
  {
    seq(|xs|, i requires 0 <= i < |xs| => if mask[i] then xs[i] else 0.0)
  }

  /** The total weight of the admitted keys. */
  function Total(w: seq<real>, mask: seq<bool>): real
    requires |w| == |mask|
  {
    Sum(Masked(w, mask))
  }

  /** Every admitted key earns its weight. */
  function Raise(cur: seq<real>, w: seq<real>, mask: seq<bool>): (r: seq<real>)
    requires |cur| == |w| == |mask|
    ensures |r| == |cur|
  {
    seq(|cur|, i requires 0 <= i < |cur| => if mask[i] then cur[i] + w[i] else cur[i])
  }

  /** i holds the first maximum of xs among the admitted positions below n. */
  ghost predicate IsFirstMax(xs: seq<real>, mask: seq<bool>, n: nat, i: int)
    requires |xs| == |mask| && n <= |xs|
  {
    && 0 <= i < n && mask[i]
    && (forall j :: 0 <= j < n && mask[j] ==> xs[j] <= xs[i])
    && (forall j :: 0 <= j < i && mask[j] ==> xs[j] < xs[i])
  }

  /** The winner among the first n keys, -1 when the mask admits none of them. */
  function BestTo(xs: seq<real>, mask: seq<bool>, n: nat): (best: int)
    requires |xs| == |mask| && n <= |xs|
    ensures -1 <= best < n
    ensures best >= 0 ==> IsFirstMax(xs, mask, n, best)
    ensures best == -1 ==> forall j :: 0 <= j < n ==> !mask[j]
  {
    if n == 0 then -1
    else
      var prior := BestTo(xs, mask, n - 1);
      if mask[n - 1] && (prior == -1 || xs[n - 1] > xs[prior]) then n - 1 else prior
  }

  function Best(xs: seq<real>, mask: seq<bool>): (best: int)
    requires |xs| == |mask|
    ensures -1 <= best < |xs|
  {
    BestTo(xs, mask, |xs|)
  }

  /** The current weights after one round. */
  function Next(cur: seq<real>, w: seq<real>, mask: seq<bool>): (r: seq<real>)
    requires |cur| == |w| == |mask|
    ensures |r| == |cur|
  {
    var raised := Raise(cur, w, mask);
    var best := Best(raised, mask);
    if best < 0 then cur else raised[best := raised[best] - Total(w, mask)]
  }

  // ---- sums ----------------------------------------------------------------------------------

  lemma {:induction false} SumUpdateTo(xs: seq<real>, i: nat, v: real, n: nat)
    requires i < |xs| && n <= |xs|
    ensures SumTo(xs[i := v], n) == SumTo(xs, n) + if i < n then v - xs[i] else 0.0
  {
    if n > 0 {
      SumUpdateTo(xs, i, v, n - 1);
    }
  }

  lemma SumUpdate(xs: seq<real>, i: nat, v: real)
    requires i < |xs|
    ensures Sum(xs[i := v]) == Sum(xs) - xs[i] + v
  {
    SumUpdateTo(xs, i, v, |xs|);
  }

  lemma {:induction false} SumAddTo(xs: seq<real>, ys: seq<real>, zs: seq<real>, n: nat)
    requires |xs| == |ys| == |zs| && n <= |xs|
    requires forall i :: 0 <= i < |xs| ==> zs[i] == xs[i] + ys[i]
    ensures SumTo(zs, n) == SumTo(xs, n) + SumTo(ys, n)
  {
    if n > 0 {
      SumAddTo(xs, ys, zs, n - 1);
    }
  }

  lemma {:induction false} SumLowerTo(xs: seq<real>, ys: seq<real>, n: nat)
    requires |xs| == |ys| && n <= |xs|
    requires forall i :: 0 <= i < |xs| ==> xs[i] <= ys[i]
    ensures SumTo(xs, n) <= SumTo(ys, n)
    ensures (exists i :: 0 <= i < n && xs[i] < ys[i]) ==> SumTo(xs, n) < SumTo(ys, n)
  {
    if n > 0 {
      SumLowerTo(xs, ys, n - 1);
    }
  }

  lemma SumLower(xs: seq<real>, ys: seq<real>)
    requires |xs| == |ys|
    requires forall i :: 0 <= i < |xs| ==> xs[i] <= ys[i]
    ensures Sum(xs) <= Sum(ys)
    ensures (exists i :: 0 <= i < |xs| && xs[i] < ys[i]) ==> Sum(xs) < Sum(ys)
  {
    SumLowerTo(xs, ys, |xs|);
  }

  lemma {:induction false} SumZeroTo(xs: seq<real>, n: nat)
    requires n <= |xs| && forall i :: 0 <= i < |xs| ==> xs[i] == 0.0
    ensures SumTo(xs, n) == 0.0
  {
    if n > 0 {
      SumZeroTo(xs, n - 1);
    }
  }

  /** Non-negative entries that sum to zero are all zero. */
  lemma ZeroSum(xs: seq<real>)
    requires Sum(xs) == 0.0 && forall i :: 0 <= i < |xs| ==> xs[i] >= 0.0
    ensures forall i :: 0 <= i < |xs| ==> xs[i] == 0.0
  {
    var zero := seq(|xs|, j => 0.0);
    SumZeroTo(zero, |xs|);
    SumLower(zero, xs);
    forall i | 0 <= i < |xs| ensures xs[i] == 0.0 {
      assert zero[i] == 0.0;
    }
  }

  lemma OneMore(n: int, x: real)
    ensures Times(n + 1, x) == Times(n, x) + x
    ensures Times(0, x) == 0.0
  {}

  lemma MoreIsMore(a: nat, b: nat, x: real)
    requires a <= b && x >= 0.0
    ensures Times(a, x) <= Times(b, x)
  {}

  // ---- one round -----------------------------------------------------------------------------

  lemma RaiseAddsTotal(cur: seq<real>, w: seq<real>, mask: seq<bool>)
    requires |cur| == |w| == |mask|
    ensures Sum(Raise(cur, w, mask)) == Sum(cur) + Total(w, mask)
    ensures Sum(Masked(Raise(cur, w, mask), mask)) == Sum(Masked(cur, mask)) + Total(w, mask)
  {
    hide SumTo;
    var raised := Raise(cur, w, mask);
    SumAddTo(cur, Masked(w, mask), raised, |cur|);
    SumAddTo(Masked(cur, mask), Masked(w, mask), Masked(raised, mask), |cur|);
  }

  lemma WinnerPaysTotal(cur: seq<real>, w: seq<real>, mask: seq<bool>)
    requires |cur| == |w| == |mask| && Best(Raise(cur, w, mask), mask) >= 0
    ensures Sum(Next(cur, w, mask)) == Sum(cur)
    ensures Sum(Masked(Next(cur, w, mask), mask)) == Sum(Masked(cur, mask))
  {
    var raised := Raise(cur, w, mask);
    var best := Best(raised, mask);
    var v := raised[best] - Total(w, mask);
    assert Next(cur, w, mask) == raised[best := v];
    assert Masked(raised[best := v], mask) == Masked(raised, mask)[best := v];
    assert Masked(raised, mask)[best] == raised[best];
    hide *;
    RaiseAddsTotal(cur, w, mask);
    SumUpdate(raised, best, v);
    SumUpdate(Masked(raised, mask), best, v);
  }

  /** Whatever subset is eligible, a round moves weight around and creates none; the eligible keys
      keep their sum among themselves. */
  lemma RoundConservesWeight(cur: seq<real>, w: seq<real>, mask: seq<bool>)
    requires |cur| == |w| == |mask|
    ensures Sum(Next(cur, w, mask)) == Sum(cur)
    ensures Sum(Masked(Next(cur, w, mask), mask)) == Sum(Masked(cur, mask))
  {
    hide Sum, Best, Raise, Total;
    if Best(Raise(cur, w, mask), mask) >= 0 {
      WinnerPaysTotal(cur, w, mask);
    }
  }

  predicate PositiveOn(w: seq<real>, mask: seq<bool>)
    requires |w| == |mask|
  {
    forall i :: 0 <= i < |w| && mask[i] ==> w[i] > 0.0
  }

  /** Eligible keys owe less than one full round and owe nothing in sum. */
  ghost predicate Balanced(cur: seq<real>, w: seq<real>, mask: seq<bool>)
    requires |cur| == |w| == |mask|
  {
    && Sum(Masked(cur, mask)) == 0.0
    && forall i :: 0 <= i < |cur| && mask[i] ==> cur[i] > -Total(w, mask)
  }

  lemma TotalPositive(w: seq<real>, mask: seq<bool>, i: nat)
    requires |w| == |mask| && i < |w| && mask[i]
    requires PositiveOn(w, mask)
    ensures 0.0 < w[i] <= Total(w, mask)
  {
    hide SumTo;
    var zero := seq(|w|, j => 0.0);
    SumZeroTo(zero, |w|);
    SumUpdate(zero, i, w[i]);
    SumLower(zero[i := w[i]], Masked(w, mask));
  }

  /** The winner's raised weight is positive: the eligible keys together have just earned W > 0. */
  lemma WinnerIsPositive(cur: seq<real>, w: seq<real>, mask: seq<bool>)
    requires |cur| == |w| == |mask|
    requires PositiveOn(w, mask) && Sum(Masked(cur, mask)) == 0.0
    requires Best(Raise(cur, w, mask), mask) >= 0
    ensures Raise(cur, w, mask)[Best(Raise(cur, w, mask), mask)] > 0.0
  {
    var raised := Raise(cur, w, mask);
    var best := Best(raised, mask);
    TotalPositive(w, mask, best);
    RaiseAddsTotal(cur, w, mask);
    if raised[best] <= 0.0 {
      hide SumTo;
      var zero := seq(|w|, j => 0.0);
      SumZeroTo(zero, |w|);
      SumLower(Masked(raised, mask), zero);
    }
  }

  /** The key invariant: paying the total keeps every eligible weight above -W. */
  lemma BalanceKept(cur: seq<real>, w: seq<real>, mask: seq<bool>)
    requires |cur| == |w| == |mask|
    requires PositiveOn(w, mask) && Balanced(cur, w, mask)
    ensures Balanced(Next(cur, w, mask), w, mask)
  {
    hide Sum, Total;
    RoundConservesWeight(cur, w, mask);
    if Best(Raise(cur, w, mask), mask) >= 0 {
      WinnerIsPositive(cur, w, mask);
    }
  }

  // ---- many rounds with one fixed set of eligible keys ---------------------------------------

  /** The current weights after k rounds. */
  function Orbit(cur: seq<real>, w: seq<real>, mask: seq<bool>, k: nat): (r: seq<real>)
    requires |cur| == |w| == |mask|
    ensures |r| == |cur|
  {
    if k == 0 then cur else Next(Orbit(cur, w, mask, k - 1), w, mask)
  }

  /** The key chosen by round k, counting from 0. */
  function PickAt(cur: seq<real>, w: seq<real>, mask: seq<bool>, k: nat): int
    requires |cur| == |w| == |mask|
  {
    Best(Raise(Orbit(cur, w, mask, k), w, mask), mask)
  }

  /** How often key i wins in rounds lo..hi. */
  function Wins(cur: seq<real>, w: seq<real>, mask: seq<bool>, i: int, lo: nat, hi: nat): nat
    requires |cur| == |w| == |mask| && lo <= hi
    decreases hi
  {
    if lo == hi then 0
    else Wins(cur, w, mask, i, lo, hi - 1) + if PickAt(cur, w, mask, hi - 1) == i then 1 else 0
  }

  lemma {:induction false} OrbitBalanced(cur: seq<real>, w: seq<real>, mask: seq<bool>, k: nat)
    requires |cur| == |w| == |mask|
    requires PositiveOn(w, mask) && Balanced(cur, w, mask)
    ensures Balanced(Orbit(cur, w, mask, k), w, mask)
  {
    hide Balanced, Next, PositiveOn;
    if k > 0 {
      OrbitBalanced(cur, w, mask, k - 1);
      BalanceKept(Orbit(cur, w, mask, k - 1), w, mask);
    }
  }

  /** One round seen from one eligible key. */
  lemma EarnAndPay(cur: seq<real>, w: seq<real>, mask: seq<bool>, i: nat)
    requires |cur| == |w| == |mask| && i < |w| && mask[i]
    ensures var won := Best(Raise(cur, w, mask), mask) == i;
            Next(cur, w, mask)[i] == cur[i] + w[i] - if won then Total(w, mask) else 0.0
  {}

  /** Bookkeeping: a key's weight moves by what it earned less one total for each win. */
  lemma {:induction false} Ledger(cur: seq<real>, w: seq<real>, mask: seq<bool>, i: nat, lo: nat, hi: nat)
    requires |cur| == |w| == |mask| && i < |w| && mask[i] && lo <= hi
    ensures Orbit(cur, w, mask, hi)[i] - Orbit(cur, w, mask, lo)[i]
         == Times(hi - lo, w[i]) - Times(Wins(cur, w, mask, i, lo, hi), Total(w, mask))
    decreases hi
  {
    hide Next, Best, Raise, Total, Times;
    OneMore(hi - 1 - lo, w[i]);
    if lo < hi {
      Ledger(cur, w, mask, i, lo, hi - 1);
      OneMore(Wins(cur, w, mask, i, lo, hi - 1), Total(w, mask));
      EarnAndPay(Orbit(cur, w, mask, hi - 1), w, mask, i);
    } else {
      OneMore(0, Total(w, mask));
    }
  }

  function CountTo(mask: seq<bool>, n: nat): nat
    requires n <= |mask|
  {
    if n == 0 then 0 else CountTo(mask, n - 1) + if mask[n - 1] then 1 else 0
  }

  /** The number of eligible keys. */
  function Count(mask: seq<bool>): nat {
    CountTo(mask, |mask|)
  }

  lemma {:induction false} CountPositive(mask: seq<bool>, i: nat, n: nat)
    requires i < n <= |mask| && mask[i]
    ensures CountTo(mask, n) >= 1
  {
    if i < n - 1 {
      CountPositive(mask, i, n - 1);
    }
  }

  lemma {:induction false} SumFloorTo(xs: seq<real>, mask: seq<bool>, floor: real, n: nat)
    requires |xs| == |mask| && n <= |xs|
    requires forall i :: 0 <= i < |xs| && mask[i] ==> xs[i] >= floor
    ensures SumTo(Masked(xs, mask), n) >= Times(CountTo(mask, n), floor)
  {
    hide Times;
    OneMore(0, floor);
    if n > 0 {
      SumFloorTo(xs, mask, floor, n - 1);
      OneMore(CountTo(mask, n - 1), floor);
    }
  }

  lemma FloorShare(n: int, t: real)
    ensures Times(n, -t) == -Times(n - 1, t) - t
  {}

  /** A balanced key holds at most what all the others together owe. */
  lemma CreditBound(cur: seq<real>, w: seq<real>, mask: seq<bool>, i: nat)
    requires |cur| == |w| == |mask| && i < |cur| && mask[i]
    requires PositiveOn(w, mask) && Balanced(cur, w, mask)
    ensures cur[i] <= Times(Count(mask) - 1, Total(w, mask))
  {
    hide Total, SumTo, CountTo, Times;
    var t := Total(w, mask);
    var floored := cur[i := -t];
    SumFloorTo(floored, mask, -t, |cur|);
    assert Masked(floored, mask) == Masked(cur, mask)[i := -t];
    SumUpdate(Masked(cur, mask), i, -t);
    FloorShare(Count(mask), t);
  }

  ghost predicate ZeroOn(cur: seq<real>, mask: seq<bool>)
    requires |cur| == |mask|
  {
    forall i :: 0 <= i < |cur| && mask[i] ==> cur[i] == 0.0
  }

  lemma ZeroIsBalanced(cur: seq<real>, w: seq<real>, mask: seq<bool>, i: nat)
    requires |cur| == |w| == |mask| && i < |w| && mask[i]
    requires PositiveOn(w, mask) && ZeroOn(cur, mask)
    ensures Balanced(cur, w, mask)
  {
    hide SumTo;
    SumZeroTo(Masked(cur, mask), |cur|);
    TotalPositive(w, mask, i);
  }

  /** Started from zero, an eligible key's weight stays above -W and within (n-1)*W. */
  lemma OrbitRange(cur: seq<real>, w: seq<real>, mask: seq<bool>, i: nat, k: nat)
    requires |cur| == |w| == |mask| && i < |w| && mask[i]
    requires PositiveOn(w, mask) && ZeroOn(cur, mask)
    ensures Count(mask) >= 1
    ensures 0.0 < Total(w, mask)
    ensures -Total(w, mask) < Orbit(cur, w, mask, k)[i] <= Times(Count(mask) - 1, Total(w, mask))
    ensures Orbit(cur, w, mask, 0)[i] == 0.0
  {
    hide Total, Next, Sum, SumTo, Times;
    ZeroIsBalanced(cur, w, mask, i);
    OrbitBalanced(cur, w, mask, k);
    CreditBound(Orbit(cur, w, mask, k), w, mask, i);
    CountPositive(mask, i, |mask|);
    TotalPositive(w, mask, i);
  }

  /** Bounded drift: after k rounds a key's wins c satisfy k*w/W - (n-1) <= c < k*w/W + 1, here
      multiplied through by W. */
  lemma BoundedDrift(cur: seq<real>, w: seq<real>, mask: seq<bool>, i: nat, k: nat)
    requires |cur| == |w| == |mask| && i < |w| && mask[i]
    requires PositiveOn(w, mask) && ZeroOn(cur, mask)
    ensures Times(k, w[i]) - Times(Count(mask) - 1, Total(w, mask))
         <= Times(Wins(cur, w, mask, i, 0, k), Total(w, mask))
         < Times(k, w[i]) + Total(w, mask)
  {
    hide *;
    OrbitRange(cur, w, mask, i, k);
    Ledger(cur, w, mask, i, 0, k);
  }

  /** No starvation: wherever it starts, a window of at least n*W/w rounds picks the key. */
  lemma NoStarvation(cur: seq<real>, w: seq<real>, mask: seq<bool>, i: nat, lo: nat, hi: nat)
    requires |cur| == |w| == |mask| && i < |w| && mask[i] && lo <= hi
    requires PositiveOn(w, mask) && ZeroOn(cur, mask)
    requires Times(hi - lo, w[i]) >= Times(Count(mask), Total(w, mask))
    ensures Wins(cur, w, mask, i, lo, hi) > 0
  {
    hide *;
    OrbitRange(cur, w, mask, i, lo);
    OrbitRange(cur, w, mask, i, hi);
    Ledger(cur, w, mask, i, lo, hi);
    OneMore(Count(mask) - 1, Total(w, mask));
  }

  // ---- integer weights: exact shares -----------------------------------------------------------

  /** Integer weights on the eligible keys that sum to W. */
  ghost predicate IntegerShares(w: seq<real>, mask: seq<bool>, share: seq<nat>, W: nat)
    requires |w| == |mask|
  {
    && |share| == |w|
    && (forall i :: 0 <= i < |w| && mask[i] ==> share[i] > 0 && w[i] == share[i] as real)
    && Total(w, mask) == W as real
  }

  lemma Swap(a: int, b: int)
    ensures Times(a, b as real) == Times(b, a as real)
  {}

  lemma EqualShares(W: nat, s: nat, c: nat)
    requires W > 0 && Times(W, s as real) == Times(c, W as real)
    ensures c == s
  {}

  /** W*(s - c) > -W for integers means c <= s. */
  lemma WholeMultiple(W: nat, s: nat, c: nat, v: real)
    requires v == Times(W, s as real) - Times(c, W as real)
    requires v > -(W as real)
    ensures v >= 0.0
  {
    hide Times;
    Swap(W, s);
    if c > s {
      OneMore(s, W as real);
      MoreIsMore(s + 1, c, W as real);
    } else {
      MoreIsMore(c, s, W as real);
    }
  }

  lemma {:induction false} OnlyEligibleMove(cur: seq<real>, w: seq<real>, mask: seq<bool>, i: nat, k: nat)
    requires |cur| == |w| == |mask| && i < |w| && !mask[i]
    ensures Orbit(cur, w, mask, k)[i] == cur[i]
  {
    if k > 0 {
      OnlyEligibleMove(cur, w, mask, i, k - 1);
    }
  }

  lemma SharesArePositive(w: seq<real>, mask: seq<bool>, share: seq<nat>, W: nat)
    requires |w| == |mask| && IntegerShares(w, mask, share, W)
    ensures PositiveOn(w, mask)
  {
    hide Total;
  }

  /** After W rounds from zero an eligible key has not gone negative. */
  lemma CycleFloor(cur: seq<real>, w: seq<real>, mask: seq<bool>, share: seq<nat>, W: nat, i: nat)
    requires |cur| == |w| == |mask| && i < |w| && mask[i]
    requires IntegerShares(w, mask, share, W) && ZeroOn(cur, mask)
    ensures Orbit(cur, w, mask, W)[i] >= 0.0
  {
    SharesArePositive(w, mask, share, W);
    assert w[i] == share[i] as real && Total(w, mask) == W as real by { hide Total, SumTo; }
    hide *;
    OrbitRange(cur, w, mask, i, W);
    Ledger(cur, w, mask, i, 0, W);
    WholeMultiple(W, share[i], Wins(cur, w, mask, i, 0, W), Orbit(cur, w, mask, W)[i]);
  }

  /** After W rounds from zero every key is back where it was. */
  lemma FullCycle(cur: seq<real>, w: seq<real>, mask: seq<bool>, share: seq<nat>, W: nat)
    requires |cur| == |w| == |mask|
    requires IntegerShares(w, mask, share, W) && ZeroOn(cur, mask)
    ensures Orbit(cur, w, mask, W) == cur
  {
    hide Orbit, Sum, Total;
    var end := Orbit(cur, w, mask, W);
    forall i | 0 <= i < |w| && mask[i] ensures end[i] >= 0.0 {
      CycleFloor(cur, w, mask, share, W, i);
    }
    forall i | 0 <= i < |w| ensures end[i] == cur[i] {
      if mask[i] {
        ZeroIsBalanced(cur, w, mask, i);
        OrbitBalanced(cur, w, mask, W);
        ZeroSum(Masked(end, mask));
        assert Masked(end, mask)[i] == 0.0;
      } else {
        OnlyEligibleMove(cur, w, mask, i, W);
      }
    }
  }

  lemma {:induction false} OrbitShift(cur: seq<real>, w: seq<real>, mask: seq<bool>, p: nat, k: nat)
    requires |cur| == |w| == |mask|
    requires Orbit(cur, w, mask, p) == cur
    ensures Orbit(cur, w, mask, p + k) == Orbit(cur, w, mask, k)
  {
    hide Next;
    if k > 0 {
      OrbitShift(cur, w, mask, p, k - 1);
    }
  }

  lemma SharesFromCycle(cur: seq<real>, w: seq<real>, mask: seq<bool>, share: seq<nat>, W: nat, i: nat, lo: nat)
    requires |cur| == |w| == |mask| && i < |w| && mask[i]
    requires IntegerShares(w, mask, share, W)
    requires Orbit(cur, w, mask, lo + W) == Orbit(cur, w, mask, lo)
    ensures Wins(cur, w, mask, i, lo, lo + W) == share[i]
  {
    hide Orbit, Wins, Times, Total;
    TotalPositive(w, mask, i);
    Ledger(cur, w, mask, i, lo, lo + W);
    EqualShares(W, share[i], Wins(cur, w, mask, i, lo, lo + W));
  }

  /** Exact fairness: with integer weights summing to W, any W consecutive rounds (wherever the
      block starts) pick each eligible key exactly its weight many times and repeat the weights. */
  lemma ExactShares(cur: seq<real>, w: seq<real>, mask: seq<bool>, share: seq<nat>, W: nat, i: nat, lo: nat)
    requires |cur| == |w| == |mask| && i < |w| && mask[i]
    requires IntegerShares(w, mask, share, W) && ZeroOn(cur, mask)
    ensures Wins(cur, w, mask, i, lo, lo + W) == share[i]
    ensures Orbit(cur, w, mask, lo + W) == Orbit(cur, w, mask, lo)
  {
    hide *;
    FullCycle(cur, w, mask, share, W);
    OrbitShift(cur, w, mask, W, lo);
    SharesFromCycle(cur, w, mask, share, W, i, lo);
  }
}
