/** The key scheduler in local mode (no Redis client): its state, what each operation does to that
    state, and the class that does it in place. Wall-clock time is passed in as Unix seconds. */
module Scheduling {
  import opened Text
  import opened Swrr

  datatype KeyEntry = KeyEntry(
    key: string,
    baseWeight: real,
    healthMult: real,
    weight: real,
    currentWeight: real)

  datatype State = State(
    active: seq<KeyEntry>,
    cooling: map<string, int>,
    modelCooling: map<string, int>,
    dead: set<string>,
    concurrency: map<string, int>)

  const HEALTH_MULTIPLIER_MIN := 0.5
  const HEALTH_MULTIPLIER_MAX := 2.0

  function ClampHealthMultiplier(value: real): real {
    if value < HEALTH_MULTIPLIER_MIN then HEALTH_MULTIPLIER_MIN
    else if value > HEALTH_MULTIPLIER_MAX then HEALTH_MULTIPLIER_MAX
    else value
  }

  /** The weight the rotation uses. */
  function Effective(baseWeight: real, healthMult: real): real {
    baseWeight * healthMult
  }

  // ---- reading the state ---------------------------------------------------------------------

  /** Go's map read: an absent counter is zero. */
  function CountOf(m: map<string, int>, key: string): int {
    if key in m then m[key] else 0
  }

  predicate Blocks(m: map<string, int>, field: string, now: int) {
    field in m && m[field] >= now
  }

  function PairField(key: string, model: string): string {
    key + "|" + model
  }

  /** May the key be handed out for the (trimmed) model? */
  predicate Admits(st: State, key: string, now: int, maxConcurrency: int, model: string) {
    && key !in st.dead
    && !Blocks(st.cooling, key, now)
    && (model != "" ==> !Blocks(st.modelCooling, PairField(key, model), now))
    && CountOf(st.concurrency, key) < maxConcurrency
  }

  function Currents(es: seq<KeyEntry>): (r: seq<real>)
    ensures |r| == |es|
  {
    seq(|es|, i requires 0 <= i < |es| => es[i].currentWeight)
  }

  function Weights(es: seq<KeyEntry>): (r: seq<real>)
    ensures |r| == |es|
  {
    seq(|es|, i requires 0 <= i < |es| => es[i].weight)
  }

  function EligibleMask(st: State, now: int, maxConcurrency: int, model: string): (r: seq<bool>)
    ensures |r| == |st.active|
  {
    seq(|st.active|, i requires 0 <= i < |st.active| => Admits(st, st.active[i].key, now, maxConcurrency, model))
  }

  function IndexTo(es: seq<KeyEntry>, key: string, n: nat): (i: nat)
    requires n <= |es|
    ensures i <= n
    ensures i < n ==> es[i].key == key
    ensures forall j :: 0 <= j < i ==> es[j].key != key
  {
    if n == 0 then 0
    else
      var i := IndexTo(es, key, n - 1);
      if i < n - 1 || es[n - 1].key == key then i else n
  }

  /** The first active entry of a key, |es| if there is none. */
  function IndexOf(es: seq<KeyEntry>, key: string): (i: nat)
    ensures i <= |es|
    ensures i < |es| ==> es[i].key == key
    ensures forall j :: 0 <= j < i ==> es[j].key != key
  {
    IndexTo(es, key, |es|)
  }

  lemma IndexIsFirst(es: seq<KeyEntry>, key: string, i: nat)
    requires i <= |es| && (i < |es| ==> es[i].key == key)
    requires forall j :: 0 <= j < i ==> es[j].key != key
    ensures IndexOf(es, key) == i
  {}

  predicate DistinctKeys(es: seq<KeyEntry>) {
    forall i, j :: 0 <= i < j < |es| ==> es[i].key != es[j].key
  }

  // ---- what each operation does --------------------------------------------------------------

  function Expire(m: map<string, int>, now: int): map<string, int> {
    map k | k in m && m[k] >= now :: m[k]
  }

  function Sweep(st: State, now: int): State {
    st.(cooling := Expire(st.cooling, now), modelCooling := Expire(st.modelCooling, now))
  }

  function AddKeyTo(st: State, key: string, weight: real): State {
    var i := IndexOf(st.active, key);
    if i < |st.active| then
      var e := st.active[i];
      st.(active := st.active[i := e.(baseWeight := weight, weight := Effective(weight, e.healthMult))])
    else
      st.(active := st.active + [KeyEntry(key, weight, 1.0, weight, 0.0)])
  }

  function SetMultiplierIn(st: State, key: string, multiplier: real): State {
    var k := TrimSpace(key);
    var m := ClampHealthMultiplier(multiplier);
    var i := IndexOf(st.active, k);
    if k != "" && i < |st.active| then
      var e := st.active[i];
      st.(active := st.active[i := e.(healthMult := m, weight := Effective(e.baseWeight, m))])
    else st
  }

  function WithCurrents(es: seq<KeyEntry>, cur: seq<real>): (r: seq<KeyEntry>)
    requires |cur| == |es|
    ensures |r| == |es|
  {
    seq(|es|, i requires 0 <= i < |es| => es[i].(currentWeight := cur[i]))
  }

  /** The entry AcquireKey selects, -1 for none. */
  function AcquireIndex(st: State, now: int, maxConcurrency: int, model: string): (i: int)
    ensures -1 <= i < |st.active|
  {
    var mask := EligibleMask(st, now, maxConcurrency, TrimSpace(model));
    Best(Raise(Currents(st.active), Weights(st.active), mask), mask)
  }

  function AcquireResult(st: State, now: int, maxConcurrency: int, model: string): string {
    var i := AcquireIndex(st, now, maxConcurrency, model);
    if i < 0 then "" else st.active[i].key
  }

  function Lease(st: State, key: string): State {
    st.(concurrency := st.concurrency[key := CountOf(st.concurrency, key) + 1])
  }

  function AcquireIn(st: State, now: int, maxConcurrency: int, model: string): State {
    var mask := EligibleMask(st, now, maxConcurrency, TrimSpace(model));
    var i := AcquireIndex(st, now, maxConcurrency, model);
    var swept := Sweep(st, now);
    if i < 0 then swept
    else
      var rotated := WithCurrents(st.active, Next(Currents(st.active), Weights(st.active), mask));
      Lease(swept.(active := rotated), st.active[i].key)
  }

  function AtLeastOne(n: int): int {
    if n <= 0 then 1 else n
  }

  predicate TryGrants(st: State, now: int, key: string, maxConcurrency: int, model: string) {
    var k := TrimSpace(key);
    && k != ""
    && IndexOf(st.active, k) < |st.active|
    && Admits(st, k, now, AtLeastOne(maxConcurrency), TrimSpace(model))
  }

  function TryAcquireIn(st: State, now: int, key: string, maxConcurrency: int, model: string): State {
    if TrimSpace(key) == "" then st
    else if TryGrants(st, now, key, maxConcurrency, model) then Lease(Sweep(st, now), TrimSpace(key))
    else Sweep(st, now)
  }

  function ReleaseIn(st: State, key: string): State {
    if key != "" && CountOf(st.concurrency, key) > 0
    then st.(concurrency := st.concurrency[key := CountOf(st.concurrency, key) - 1])
    else st
  }

  function CoolIn(st: State, now: int, key: string, duration: int): State {
    st.(cooling := st.cooling[key := now + duration])
  }

  function CoolPairIn(st: State, now: int, key: string, model: string, duration: int): State {
    if IsBlank(key) || IsBlank(model) then st
    else st.(modelCooling := st.modelCooling[PairField(key, model) := now + duration])
  }

  function MarkDeadIn(st: State, key: string): State {
    var i := IndexOf(st.active, key);
    var cleared :=
      if i < |st.active| then st.active[i := st.active[i].(currentWeight := 0.0)] else st.active;
    st.(active := cleared, dead := st.dead + {key}, concurrency := st.concurrency - {key})
  }

  function ResetIn(st: State): State {
    st.(active := [], dead := {}, concurrency := map[])
  }

  datatype Stats = Stats(active: nat, cooling: nat, dead: nat)

  function StatsOf(st: State, now: int): Stats {
    Stats(|st.active|, |Expire(st.cooling, now)|, |st.dead|)
  }

  lemma SweepKeepsAdmission(st: State, key: string, now: int, maxConcurrency: int, model: string)
    ensures Admits(Sweep(st, now), key, now, maxConcurrency, model) == Admits(st, key, now, maxConcurrency, model)
  {}

  lemma AdmissionIgnoresEntries(st: State, es: seq<KeyEntry>, key: string, now: int, maxConcurrency: int, model: string)
    ensures Admits(st.(active := es), key, now, maxConcurrency, model) == Admits(st, key, now, maxConcurrency, model)
  {}

  /** What one entry contributes to a round. */
  lemma RoundAt(st: State, mask: seq<bool>, now: int, maxConcurrency: int, model: string, i: nat)
    requires mask == EligibleMask(st, now, maxConcurrency, model) && i < |st.active|
    ensures |mask| == |st.active| == |Masked(Weights(st.active), mask)|
    ensures mask[i] == Admits(st, st.active[i].key, now, maxConcurrency, model)
    ensures Masked(Weights(st.active), mask)[i] == if mask[i] then st.active[i].weight else 0.0
    ensures Raise(Currents(st.active), Weights(st.active), mask)[i]
         == if mask[i] then st.active[i].currentWeight + st.active[i].weight else st.active[i].currentWeight
  {
    hide Admits;
  }

  lemma RoundEntries(before: seq<KeyEntry>, after: seq<KeyEntry>, raised: seq<real>)
    requires |before| == |after| == |raised|
    requires forall j :: 0 <= j < |after| ==> after[j] == before[j].(currentWeight := raised[j])
    ensures after == WithCurrents(before, raised)
  {}

  /** Dropping expired entries changes nobody's admission. */
  lemma SweepKeepsMask(st: State, now: int, maxConcurrency: int, model: string)
    ensures EligibleMask(Sweep(st, now), now, maxConcurrency, model) == EligibleMask(st, now, maxConcurrency, model)
  {}

  lemma NothingRaised(es: seq<KeyEntry>, mask: seq<bool>)
    requires |mask| == |es|
    requires Best(Raise(Currents(es), Weights(es), mask), mask) == -1
    ensures WithCurrents(es, Raise(Currents(es), Weights(es), mask)) == es
  {}

  lemma ChosenPays(es: seq<KeyEntry>, mask: seq<bool>, i: nat)
    requires |mask| == |es| && i < |es|
    requires i == Best(Raise(Currents(es), Weights(es), mask), mask)
    ensures var raised := WithCurrents(es, Raise(Currents(es), Weights(es), mask));
            var paid := raised[i].(currentWeight := raised[i].currentWeight - Total(Weights(es), mask));
            raised[i := paid] == WithCurrents(es, Next(Currents(es), Weights(es), mask))
  {
    hide Total, BestTo;
  }

  /** The deletion loop shared by AcquireKey, TryAcquireSpecificKey and CleanupExpired. */
  method SweepExpired(m: map<string, int>, now: int) returns (kept: map<string, int>)
    ensures kept == Expire(m, now)
  {
    kept := m;
    var todo := m.Keys;
    while todo != {}
      invariant todo <= m.Keys
      invariant kept.Keys == todo + Expire(m, now).Keys
      invariant forall k :: k in kept ==> kept[k] == m[k]
      decreases |todo|
    {
      var field :| field in todo;
      todo := todo - {field};
      if m[field] < now {
        kept := kept - {field};
      }
    }
  }

  class Scheduler {
    var active: seq<KeyEntry>
    var cooling: map<string, int>
    var modelCooling: map<string, int>
    var dead: set<string>
    var concurrency: map<string, int>

    function Snapshot(): State
      reads this
    {
      State(active, cooling, modelCooling, dead, concurrency)
    }

    constructor ()
      ensures Snapshot() == State([], map[], map[], {}, map[])
    {
      active, cooling, modelCooling, dead, concurrency := [], map[], map[], {}, map[];
    }

    method AddKey(key: string, weight: real)
      modifies this
      ensures Snapshot() == AddKeyTo(old(Snapshot()), key, weight)
    {
      for i := 0 to |active|
        invariant Snapshot() == old(Snapshot())
        invariant forall j :: 0 <= j < i ==> active[j].key != key
      {
        if active[i].key == key {
          IndexIsFirst(active, key, i);
          var item := active[i].(baseWeight := weight);
          active := active[i := item.(weight := Effective(weight, item.healthMult))];
          return;
        }
      }
      IndexIsFirst(active, key, |active|);
      active := active + [KeyEntry(key, weight, 1.0, weight, 0.0)];
    }

    method SetHealthMultiplier(key: string, multiplier: real)
      modifies this
      ensures Snapshot() == SetMultiplierIn(old(Snapshot()), key, multiplier)
    {
      var trimmed := TrimSpace(key);
      if trimmed == "" {
        return;
      }
      var clamped := ClampHealthMultiplier(multiplier);
      for i := 0 to |active|
        invariant Snapshot() == old(Snapshot())
        invariant forall j :: 0 <= j < i ==> active[j].key != trimmed
      {
        if active[i].key == trimmed {
          IndexIsFirst(active, trimmed, i);
          var item := active[i].(healthMult := clamped);
          active := active[i := item.(weight := Effective(item.baseWeight, clamped))];
          return;
        }
      }
      IndexIsFirst(active, trimmed, |active|);
    }

    /** The checks AcquireKey and TryAcquireSpecificKey make before handing out a key. */
    method IsAdmitted(key: string, now: int, maxConcurrency: int, model: string) returns (ok: bool)
      ensures ok <==> Admits(Snapshot(), key, now, maxConcurrency, model)
    {
      if key in dead {
        return false;
      }
      if Blocks(cooling, key, now) {
        return false;
      }
      if model != "" && Blocks(modelCooling, PairField(key, model), now) {
        return false;
      }
      ok := CountOf(concurrency, key) < maxConcurrency;
    }

    /** Both deletion loops. */
    method SweepBoth(now: int)
      modifies this`cooling, this`modelCooling
      ensures Snapshot() == Sweep(old(Snapshot()), now)
    {
      hide Expire;
      cooling := SweepExpired(cooling, now);
      modelCooling := SweepExpired(modelCooling, now);
    }

    method IsActive(key: string) returns (found: bool)
      ensures found <==> IndexOf(active, key) < |active|
    {
      for i := 0 to |active|
        invariant forall j :: 0 <= j < i ==> active[j].key != key
      {
        if active[i].key == key {
          IndexIsFirst(active, key, i);
          return true;
        }
      }
      IndexIsFirst(active, key, |active|);
      found := false;
    }

    /** The selection loop of AcquireKey: every admitted key earns its weight, and the first maximum
        is remembered. Expired cooling entries have been swept before. */
    method RaiseAdmitted(now: int, maxConcurrency: int, model: string)
        returns (selectedIndex: int, totalWeight: real)
      modifies this`active
      ensures var pre := old(Snapshot());
              var mask := EligibleMask(pre, now, maxConcurrency, model);
              var raised := Raise(Currents(pre.active), Weights(pre.active), mask);
              && active == WithCurrents(pre.active, raised)
              && selectedIndex == Best(raised, mask)
              && totalWeight == Total(Weights(pre.active), mask)
    {
      hide Admits, Raise, Masked, EligibleMask, Currents, Weights, WithCurrents;
      ghost var pre := Snapshot();
      ghost var mask := EligibleMask(pre, now, maxConcurrency, model);
      ghost var raised := Raise(Currents(pre.active), Weights(pre.active), mask);
      ghost var earned := Masked(Weights(pre.active), mask);
      selectedIndex, totalWeight := -1, 0.0;
      var selectedWeight := 0.0;
      for i := 0 to |active|
        invariant |active| == |pre.active|
        invariant forall j :: 0 <= j < i ==> active[j] == pre.active[j].(currentWeight := raised[j])
        invariant forall j :: i <= j < |active| ==> active[j] == pre.active[j]
        invariant totalWeight == SumTo(earned, i)
        invariant selectedIndex == BestTo(raised, mask, i)
        invariant selectedIndex >= 0 ==> selectedWeight == raised[selectedIndex]
      {
        var item := active[i];
        var admitted := IsAdmitted(item.key, now, maxConcurrency, model);
        AdmissionIgnoresEntries(pre, active, item.key, now, maxConcurrency, model);
        RoundAt(pre, mask, now, maxConcurrency, model, i);
        if !admitted {
          continue;
        }
        active := active[i := item.(currentWeight := item.currentWeight + item.weight)];
        totalWeight := totalWeight + item.weight;
        if selectedIndex == -1 || active[i].currentWeight > selectedWeight {
          selectedIndex, selectedWeight := i, active[i].currentWeight;
        }
      }
      RoundEntries(pre.active, active, raised);
    }

    /** Smooth weighted round robin over the admitted keys. */
    method AcquireKey(now: int, maxConcurrency: int, model: string) returns (key: string)
      modifies this
      ensures Snapshot() == AcquireIn(old(Snapshot()), now, maxConcurrency, model)
      ensures key == AcquireResult(old(Snapshot()), now, maxConcurrency, model)
    {
      hide EligibleMask, Raise, Next, BestTo, Total, Currents, Weights, Expire, TrimSpace;
      ghost var pre := Snapshot();
      ghost var mask := EligibleMask(pre, now, maxConcurrency, TrimSpace(model));
      SweepBoth(now);
      SweepKeepsMask(pre, now, maxConcurrency, TrimSpace(model));
      var selectedIndex, totalWeight := RaiseAdmitted(now, maxConcurrency, TrimSpace(model));
      if selectedIndex == -1 {
        NothingRaised(pre.active, mask);
        return "";
      }
      var chosen := active[selectedIndex];
      active := active[selectedIndex := chosen.(currentWeight := chosen.currentWeight - totalWeight)];
      concurrency := concurrency[chosen.key := CountOf(concurrency, chosen.key) + 1];
      ChosenPays(pre.active, mask, selectedIndex);
      return chosen.key;
    }

    method TryAcquireSpecificKey(now: int, key: string, maxConcurrency: int, model: string) returns (granted: bool)
      modifies this
      ensures Snapshot() == TryAcquireIn(old(Snapshot()), now, key, maxConcurrency, model)
      ensures granted == TryGrants(old(Snapshot()), now, key, maxConcurrency, model)
    {
      hide TrimSpace, Expire, IndexOf, Admits;
      var k, m := TrimSpace(key), TrimSpace(model);
      if k == "" {
        return false;
      }
      var limit := if maxConcurrency <= 0 then 1 else maxConcurrency;
      SweepBoth(now);
      SweepKeepsAdmission(old(Snapshot()), k, now, limit, m);
      var found := IsActive(k);
      if !found {
        return false;
      }
      var admitted := IsAdmitted(k, now, limit, m);
      if !admitted {
        return false;
      }
      concurrency := concurrency[k := CountOf(concurrency, k) + 1];
      return true;
    }

    method ReleaseKey(key: string)
      modifies this`concurrency
      ensures Snapshot() == ReleaseIn(old(Snapshot()), key)
    {
      if key != "" && CountOf(concurrency, key) > 0 {
        concurrency := concurrency[key := CountOf(concurrency, key) - 1];
      }
    }

    method MarkCooling(now: int, key: string, duration: int)
      modifies this`cooling
      ensures Snapshot() == CoolIn(old(Snapshot()), now, key, duration)
    {
      cooling := cooling[key := now + duration];
    }

    method MarkModelCooling(now: int, key: string, model: string, duration: int)
      modifies this`modelCooling
      ensures Snapshot() == CoolPairIn(old(Snapshot()), now, key, model, duration)
    {
      if !IsBlank(key) && !IsBlank(model) {
        modelCooling := modelCooling[PairField(key, model) := now + duration];
      }
    }

    method MarkDead(key: string)
      modifies this
      ensures Snapshot() == MarkDeadIn(old(Snapshot()), key)
    {
      dead := dead + {key};
      concurrency := concurrency - {key};
      for i := 0 to |active|
        invariant active == old(active) && dead == old(dead) + {key} && concurrency == old(concurrency) - {key}
        invariant cooling == old(cooling) && modelCooling == old(modelCooling)
        invariant forall j :: 0 <= j < i ==> active[j].key != key
      {
        if active[i].key == key {
          IndexIsFirst(active, key, i);
          active := active[i := active[i].(currentWeight := 0.0)];
          return;
        }
      }
      IndexIsFirst(active, key, |active|);
    }

    /** Cooling survives a reset. */
    method Reset()
      modifies this
      ensures Snapshot() == ResetIn(old(Snapshot()))
    {
      active, dead, concurrency := [], {}, map[];
    }

    method GetStats(now: int) returns (stats: Stats)
      ensures stats == StatsOf(Snapshot(), now)
    {
      var count := 0;
      var todo := cooling.Keys;
      assert cooling.Keys - todo == {};
      while todo != {}
        invariant todo <= cooling.Keys
        invariant count == |set k | k in cooling.Keys - todo && cooling[k] >= now|
        decreases |todo|
      {
        var field :| field in todo;
        ghost var seen := set k | k in cooling.Keys - todo && cooling[k] >= now;
        todo := todo - {field};
        ghost var seen' := set k | k in cooling.Keys - todo && cooling[k] >= now;
        if cooling[field] >= now {
          assert seen' == seen + {field};
          count := count + 1;
        } else {
          assert seen' == seen;
        }
      }
      assert (set k | k in cooling.Keys - todo && cooling[k] >= now) == Expire(cooling, now).Keys;
      return Stats(|active|, count, |dead|);
    }

    method CleanupExpired(now: int)
      modifies this`cooling, this`modelCooling
      ensures Snapshot() == Sweep(old(Snapshot()), now)
    {
      cooling := SweepExpired(cooling, now);
      modelCooling := SweepExpired(modelCooling, now);
    }
  }
}
