/** Fairness of AcquireKey over consecutive calls on real scheduler states. */
module SchedulerFairness {
  import opened Text
  import opened Swrr
  import opened Scheduling

  datatype Call = Call(now: int, maxConcurrency: int, model: string)

  function MaskAt(pre: seq<State>, calls: seq<Call>, i: nat): seq<bool>
    requires i < |calls| == |pre|
  {
    EligibleMask(pre[i], calls[i].now, calls[i].maxConcurrency, TrimSpace(calls[i].model))
  }

  function After(pre: seq<State>, calls: seq<Call>, i: nat): State
    requires i < |calls| == |pre|
  {
    AcquireIn(pre[i], calls[i].now, calls[i].maxConcurrency, calls[i].model)
  }

  function PickedAt(pre: seq<State>, calls: seq<Call>, i: nat): int
    requires i < |calls| == |pre|
  {
    AcquireIndex(pre[i], calls[i].now, calls[i].maxConcurrency, calls[i].model)
  }

  /** Consecutive calls that all find the same keys eligible. Between two calls anything may happen
      (releases, cooling, clock ticks) that leaves the list of keys as the earlier call left it. */
  ghost predicate Steady(pre: seq<State>, calls: seq<Call>, mask: seq<bool>) {
    && |pre| == |calls| > 0
    && (forall i :: 0 <= i < |calls| ==> MaskAt(pre, calls, i) == mask)
    && (forall i :: 0 <= i < |calls| - 1 ==> pre[i + 1].active == After(pre, calls, i).active)
  }

  /** How many of the calls lo..hi hand out the key at position j. */
  function Served(pre: seq<State>, calls: seq<Call>, j: nat, lo: nat, hi: nat): nat
    requires lo <= hi <= |calls| == |pre|
    decreases hi
  {
    if lo == hi then 0
    else Served(pre, calls, j, lo, hi - 1) + if PickedAt(pre, calls, hi - 1) == j then 1 else 0
  }

  lemma AcquireRotates(st: State, now: int, limit: int, model: string)
    ensures var mask := EligibleMask(st, now, limit, TrimSpace(model));
            var after := AcquireIn(st, now, limit, model).active;
            && |after| == |st.active|
            && Currents(after) == Next(Currents(st.active), Weights(st.active), mask)
            && Weights(after) == Weights(st.active)
            && forall i :: 0 <= i < |after| ==> after[i].key == st.active[i].key
  {
    hide TrimSpace, EligibleMask, Total, BestTo;
  }

  /** Every AcquireKey leaves the sum of all current weights unchanged, whatever is eligible. */
  lemma AcquireConservesWeight(st: State, now: int, limit: int, model: string)
    ensures Sum(Currents(AcquireIn(st, now, limit, model).active)) == Sum(Currents(st.active))
  {
    hide Sum, EligibleMask, TrimSpace, AcquireIn, Next, Currents, Weights;
    AcquireRotates(st, now, limit, model);
    RoundConservesWeight(Currents(st.active), Weights(st.active), EligibleMask(st, now, limit, TrimSpace(model)));
  }

  /** A steady run follows the abstract rotation. */
  lemma {:induction false} SteadyFollowsOrbit(pre: seq<State>, calls: seq<Call>, mask: seq<bool>, i: nat)
    requires Steady(pre, calls, mask) && i < |calls|
    ensures |mask| == |pre[0].active| == |pre[i].active|
    ensures Weights(pre[i].active) == Weights(pre[0].active)
    ensures Currents(pre[i].active) == Orbit(Currents(pre[0].active), Weights(pre[0].active), mask, i)
    ensures PickedAt(pre, calls, i) == PickAt(Currents(pre[0].active), Weights(pre[0].active), mask, i)
    ensures forall j :: 0 <= j < |mask| ==> pre[i].active[j].key == pre[0].active[j].key
  {
    assert MaskAt(pre, calls, i) == mask;
    hide Next, Best, Currents, Weights, AcquireIn, EligibleMask, TrimSpace, Raise;
    if i > 0 {
      SteadyFollowsOrbit(pre, calls, mask, i - 1);
      var st, call := pre[i - 1], calls[i - 1];
      assert MaskAt(pre, calls, i - 1) == mask;
      AcquireRotates(st, call.now, call.maxConcurrency, call.model);
      assert pre[i].active == After(pre, calls, i - 1).active;
    }
    assert EligibleMask(pre[i], calls[i].now, calls[i].maxConcurrency, TrimSpace(calls[i].model)) == mask;
  }

  lemma SteadyPick(pre: seq<State>, calls: seq<Call>, mask: seq<bool>, i: nat)
    requires Steady(pre, calls, mask) && i < |calls|
    ensures |mask| == |pre[0].active|
    ensures PickedAt(pre, calls, i) == PickAt(Currents(pre[0].active), Weights(pre[0].active), mask, i)
  {
    SteadyFollowsOrbit(pre, calls, mask, i);
  }

  lemma SteadyCurrents(pre: seq<State>, calls: seq<Call>, mask: seq<bool>, i: nat)
    requires Steady(pre, calls, mask) && i < |calls|
    ensures |mask| == |pre[0].active|
    ensures Currents(pre[i].active) == Orbit(Currents(pre[0].active), Weights(pre[0].active), mask, i)
  {
    SteadyFollowsOrbit(pre, calls, mask, i);
  }

  lemma {:induction false} CountPicks(
      pre: seq<State>, calls: seq<Call>, cur: seq<real>, w: seq<real>, mask: seq<bool>, j: nat, lo: nat, hi: nat)
    requires lo <= hi <= |calls| == |pre| && |cur| == |w| == |mask|
    requires forall i :: 0 <= i < |calls| ==> PickedAt(pre, calls, i) == PickAt(cur, w, mask, i)
    ensures Served(pre, calls, j, lo, hi) == Wins(cur, w, mask, j, lo, hi)
    decreases hi
  {
    hide PickedAt, PickAt;
    if lo < hi {
      CountPicks(pre, calls, cur, w, mask, j, lo, hi - 1);
    }
  }

  lemma ServedIsWins(pre: seq<State>, calls: seq<Call>, mask: seq<bool>, j: nat, lo: nat, hi: nat)
    requires Steady(pre, calls, mask) && lo <= hi <= |calls|
    ensures |mask| == |pre[0].active|
    ensures Served(pre, calls, j, lo, hi) == Wins(Currents(pre[0].active), Weights(pre[0].active), mask, j, lo, hi)
  {
    assert |pre| == |calls| > 0;
    hide *;
    SteadyPick(pre, calls, mask, 0);
    var cur, w := Currents(pre[0].active), Weights(pre[0].active);
    forall i | 0 <= i < |calls| ensures PickedAt(pre, calls, i) == PickAt(cur, w, mask, i) {
      SteadyPick(pre, calls, mask, i);
    }
    CountPicks(pre, calls, cur, w, mask, j, lo, hi);
  }

  /** The start the theorems assume: eligible keys have positive weight and owe nothing. */
  ghost predicate FreshStart(st: State, mask: seq<bool>) {
    && |mask| == |st.active|
    && PositiveOn(Weights(st.active), mask)
    && ZeroOn(Currents(st.active), mask)
  }

  /** While a steady run lasts, no eligible key's current weight sinks to -W or below. */
  lemma DebtIsBounded(pre: seq<State>, calls: seq<Call>, mask: seq<bool>, j: nat, i: nat)
    requires Steady(pre, calls, mask) && FreshStart(pre[0], mask)
    requires i < |calls| && j < |mask| && mask[j]
    ensures |pre[i].active| == |mask|
    ensures pre[i].active[j].currentWeight > -Total(Weights(pre[0].active), mask)
  {
    SteadyFollowsOrbit(pre, calls, mask, i);
    assert pre[i].active[j].currentWeight == Currents(pre[i].active)[j];
    hide Steady, Weights, Currents, Total, Times, Orbit;
    OrbitRange(Currents(pre[0].active), Weights(pre[0].active), mask, j, i);
  }

  /** Exact shares: integer weights summing to W give every block of W consecutive calls, wherever
      it starts, exactly share[j] picks of key j. */
  lemma BlocksAreExactlyFair(
      pre: seq<State>, calls: seq<Call>, mask: seq<bool>, share: seq<nat>, W: nat, j: nat, lo: nat)
    requires Steady(pre, calls, mask) && FreshStart(pre[0], mask)
    requires IntegerShares(Weights(pre[0].active), mask, share, W)
    requires j < |mask| && mask[j] && lo + W <= |calls|
    ensures Served(pre, calls, j, lo, lo + W) == share[j]
  {
    assert |pre| == |calls| > 0;
    hide Steady, Weights, Currents, Wins, Served;
    ServedIsWins(pre, calls, mask, j, lo, lo + W);
    ExactShares(Currents(pre[0].active), Weights(pre[0].active), mask, share, W, j, lo);
  }

  /** ... and hands every key back the current weight it had W calls earlier. */
  lemma WeightsRepeat(pre: seq<State>, calls: seq<Call>, mask: seq<bool>, share: seq<nat>, W: nat, j: nat, lo: nat)
    requires Steady(pre, calls, mask) && FreshStart(pre[0], mask)
    requires IntegerShares(Weights(pre[0].active), mask, share, W)
    requires j < |mask| && mask[j] && lo + W < |calls|
    ensures Currents(pre[lo + W].active) == Currents(pre[lo].active)
  {
    assert |pre| == |calls| > 0;
    assert FreshStart(pre[0], mask) && ZeroOn(Currents(pre[0].active), mask);
    hide *;
    SteadyCurrents(pre, calls, mask, lo);
    SteadyCurrents(pre, calls, mask, lo + W);
    ExactShares(Currents(pre[0].active), Weights(pre[0].active), mask, share, W, j, lo);
  }

  /** Bounded drift for real weights: k*w - (n-1)*W <= c*W < k*w + W after k calls. */
  lemma DriftIsBounded(pre: seq<State>, calls: seq<Call>, mask: seq<bool>, j: nat, k: nat)
    requires Steady(pre, calls, mask) && FreshStart(pre[0], mask)
    requires j < |mask| && mask[j] && k <= |calls|
    ensures var w := Weights(pre[0].active);
            var W := Total(w, mask);
            Times(k, w[j]) - Times(Count(mask) - 1, W)
              <= Times(Served(pre, calls, j, 0, k), W)
              < Times(k, w[j]) + W
  {
    assert |pre| == |calls| > 0;
    hide Steady, Weights, Currents, Wins, Served, Times, Total, Count;
    ServedIsWins(pre, calls, mask, j, 0, k);
    BoundedDrift(Currents(pre[0].active), Weights(pre[0].active), mask, j, k);
  }

  /** No starvation: any window of at least n*W/w calls hands out key j. */
  lemma NobodyStarves(pre: seq<State>, calls: seq<Call>, mask: seq<bool>, j: nat, lo: nat, hi: nat)
    requires Steady(pre, calls, mask) && FreshStart(pre[0], mask)
    requires j < |mask| && mask[j] && lo <= hi <= |calls|
    requires Times(hi - lo, Weights(pre[0].active)[j]) >= Times(Count(mask), Total(Weights(pre[0].active), mask))
    ensures Served(pre, calls, j, lo, hi) > 0
  {
    assert |pre| == |calls| > 0;
    hide Steady, Weights, Currents, Wins, Served, Times, Total, Count;
    ServedIsWins(pre, calls, mask, j, lo, hi);
    NoStarvation(Currents(pre[0].active), Weights(pre[0].active), mask, j, lo, hi);
  }
}
