/** The second implementation of AcquireKey: the Lua script that runs inside Redis, and how far it
    agrees with the local one. */
module LuaScript {
  import opened Text
  import opened Swrr
  import opened Scheduling

  /** The Redis keys the script touches. */
  datatype Store = Store(
    activeKeys: map<string, real>,      // ZSET nvidia:keys:active
    deadKeys: set<string>,
    currentWeights: map<string, real>,  // HASH key_current_weight
    coolingKeys: map<string, int>,
    modelCoolingKeys: map<string, int>,
    concurrency: map<string, int>)      // concurrency:<key>, expiry left out

  function WeightAt(m: map<string, real>, key: string): real {
    if key in m then m[key] else 0.0
  }

  /** The order in which ZRANGE lists the members: each once. */
  ghost predicate Enumerates(order: seq<string>, zset: map<string, real>) {
    && (forall k :: k in order <==> k in zset)
    && (forall i, j :: 0 <= i < j < |order| ==> order[i] != order[j])
  }

  predicate LuaAdmits(s: Store, key: string, now: int, maxConcurrency: int, model: string) {
    && key !in s.deadKeys
    && (key !in s.coolingKeys || s.coolingKeys[key] < now)
    && (model == "" || PairField(key, model) !in s.modelCoolingKeys || s.modelCoolingKeys[PairField(key, model)] < now)
    && CountOf(s.concurrency, key) < maxConcurrency
  }

  function OrderWeights(s: Store, order: seq<string>): (r: seq<real>)
    ensures |r| == |order|
  {
    seq(|order|, i requires 0 <= i < |order| => WeightAt(s.activeKeys, order[i]))
  }

  function OrderCurrents(s: Store, order: seq<string>): (r: seq<real>)
    ensures |r| == |order|
  {
    seq(|order|, i requires 0 <= i < |order| => WeightAt(s.currentWeights, order[i]))
  }

  function OrderMask(s: Store, order: seq<string>, now: int, maxConcurrency: int, model: string): (r: seq<bool>)
    ensures |r| == |order|
  {
    seq(|order|, i requires 0 <= i < |order| => LuaAdmits(s, order[i], now, maxConcurrency, model))
  }

  function OrderRaised(s: Store, order: seq<string>, now: int, maxConcurrency: int, model: string): (r: seq<real>)
    ensures |r| == |order|
  {
    Raise(OrderCurrents(s, order), OrderWeights(s, order), OrderMask(s, order, now, maxConcurrency, model))
  }

  function LuaIndex(s: Store, order: seq<string>, now: int, maxConcurrency: int, model: string): (i: int)
    ensures -1 <= i < |order|
  {
    Best(OrderRaised(s, order, now, maxConcurrency, model), OrderMask(s, order, now, maxConcurrency, model))
  }

  /** The hash after HSET of vals[i] for each admitted member among the first n listed. */
  function HashTo(hash: map<string, real>, order: seq<string>, mask: seq<bool>, vals: seq<real>, n: nat): map<string, real>
    requires n <= |order| == |mask| == |vals|
  {
    if n == 0 then hash
    else
      var before := HashTo(hash, order, mask, vals, n - 1);
      if mask[n - 1] then before[order[n - 1] := vals[n - 1]] else before
  }

  /** What the script leaves behind. When its winner is the empty key it mistakes it for "nobody" and
      keeps the raised weights. */
  function LuaAcquireIn(s: Store, order: seq<string>, now: int, maxConcurrency: int, model: string): Store {
    var mask := OrderMask(s, order, now, maxConcurrency, model);
    var i := LuaIndex(s, order, now, maxConcurrency, model);
    var raised := OrderRaised(s, order, now, maxConcurrency, model);
    if i < 0 || order[i] == "" then
      s.(currentWeights := HashTo(s.currentWeights, order, mask, raised, |order|))
    else
      var rotated := Next(OrderCurrents(s, order), OrderWeights(s, order), mask);
      s.(currentWeights := HashTo(s.currentWeights, order, mask, rotated, |order|),
         concurrency := s.concurrency[order[i] := CountOf(s.concurrency, order[i]) + 1])
  }

  function LuaResult(s: Store, order: seq<string>, now: int, maxConcurrency: int, model: string): string {
    var i := LuaIndex(s, order, now, maxConcurrency, model);
    if i < 0 then "" else order[i]
  }

  /** Members not yet listed keep their hash entry; listed ones read back what was written. */
  lemma {:induction false} HashRead(
      hash: map<string, real>, order: seq<string>, mask: seq<bool>, vals: seq<real>, n: nat, i: nat)
    requires n <= |order| == |mask| == |vals| && i < |order|
    requires forall i, j :: 0 <= i < j < |order| ==> order[i] != order[j]
    ensures var h := HashTo(hash, order, mask, vals, n);
            if i < n && mask[i] then order[i] in h && h[order[i]] == vals[i]
            else WeightAt(h, order[i]) == WeightAt(hash, order[i])
  {
    if n > 0 {
      HashRead(hash, order, mask, vals, n - 1, i);
    }
  }

  lemma {:induction false} HashOverwrite(
      hash: map<string, real>, order: seq<string>, mask: seq<bool>, vals: seq<real>, n: nat, i: nat, v: real)
    requires n <= |order| == |mask| == |vals| && i < |order| && mask[i]
    requires forall i, j :: 0 <= i < j < |order| ==> order[i] != order[j]
    ensures i < n ==> HashTo(hash, order, mask, vals, n)[order[i] := v] == HashTo(hash, order, mask, vals[i := v], n)
    ensures i >= n ==> HashTo(hash, order, mask, vals, n) == HashTo(hash, order, mask, vals[i := v], n)
  {
    if n > 0 {
      HashOverwrite(hash, order, mask, vals, n - 1, i, v);
      var before := HashTo(hash, order, mask, vals, n - 1);
      if i < n - 1 && mask[n - 1] {
        assert order[i] != order[n - 1];
        assert before[order[i] := v][order[n - 1] := vals[n - 1]] == before[order[n - 1] := vals[n - 1]][order[i] := v];
      } else if i == n - 1 {
        assert before[order[i] := vals[i]][order[i] := v] == before[order[i] := v];
      }
    }
  }

  class RedisStore {
    var activeKeys: map<string, real>
    var deadKeys: set<string>
    var currentWeights: map<string, real>
    var coolingKeys: map<string, int>
    var modelCoolingKeys: map<string, int>
    var concurrency: map<string, int>

    function Contents(): Store
      reads this
    {
      Store(activeKeys, deadKeys, currentWeights, coolingKeys, modelCoolingKeys, concurrency)
    }

    constructor (s: Store)
      ensures Contents() == s
    {
      activeKeys, deadKeys, currentWeights := s.activeKeys, s.deadKeys, s.currentWeights;
      coolingKeys, modelCoolingKeys, concurrency := s.coolingKeys, s.modelCoolingKeys, s.concurrency;
    }

    /** The script's four checks. */
    method IsAdmitted(key: string, now: int, maxConcurrency: int, model: string) returns (ok: bool)
      ensures ok <==> LuaAdmits(Contents(), key, now, maxConcurrency, model)
    {
      if key in deadKeys {
        return false;
      }
      if key in coolingKeys && coolingKeys[key] >= now {
        return false;
      }
      if model != "" && PairField(key, model) in modelCoolingKeys && modelCoolingKeys[PairField(key, model)] >= now {
        return false;
      }
      ok := CountOf(concurrency, key) < maxConcurrency;
    }

    /** The script's loop over the listed members. */
    method RaiseListed(order: seq<string>, now: int, maxConcurrency: int, model: string)
        returns (selected: string, totalWeight: real)
      requires Enumerates(order, activeKeys)
      modifies this`currentWeights
      ensures var s := old(Contents());
              var mask := OrderMask(s, order, now, maxConcurrency, model);
              && selected == LuaResult(s, order, now, maxConcurrency, model)
              && totalWeight == Total(OrderWeights(s, order), mask)
              && currentWeights == HashTo(s.currentWeights, order, mask, OrderRaised(s, order, now, maxConcurrency, model), |order|)
    {
      hide LuaAdmits, OrderMask, OrderWeights, OrderRaised, Masked;
      ghost var s := Contents();
      ghost var mask := OrderMask(s, order, now, maxConcurrency, model);
      ghost var raised := OrderRaised(s, order, now, maxConcurrency, model);
      ghost var earned := Masked(OrderWeights(s, order), mask);
      selected := "";
      var hasWeight, selectedWeight := false, 0.0;
      totalWeight := 0.0;
      for i := 0 to |order|
        invariant currentWeights == HashTo(s.currentWeights, order, mask, raised, i)
        invariant totalWeight == SumTo(earned, i)
        invariant hasWeight <==> BestTo(raised, mask, i) >= 0
        invariant selected == if hasWeight then order[BestTo(raised, mask, i)] else ""
        invariant hasWeight ==> selectedWeight == raised[BestTo(raised, mask, i)]
      {
        var key := order[i];
        assert key in activeKeys;
        var weight := activeKeys[key];
        HashRead(s.currentWeights, order, mask, raised, i, i);
        ListedAt(s, order, mask, now, maxConcurrency, model, i);
        var admitted := IsAdmitted(key, now, maxConcurrency, model);
        AdmissionIgnoresWeights(s, currentWeights, key, now, maxConcurrency, model);
        if !admitted {
          continue;
        }
        var newWeight := WeightAt(currentWeights, key) + weight;
        currentWeights := currentWeights[key := newWeight];
        totalWeight := totalWeight + weight;
        if !hasWeight || newWeight > selectedWeight {
          selected, hasWeight, selectedWeight := key, true, newWeight;
        }
      }
    }

    /** LuaAcquireKey; `order` is what ZRANGE returned. The empty string is the script's "nobody". */
    method LuaAcquireKey(order: seq<string>, now: int, maxConcurrency: int, model: string) returns (selected: string)
      requires Enumerates(order, activeKeys)
      modifies this`currentWeights, this`concurrency
      ensures selected == LuaResult(old(Contents()), order, now, maxConcurrency, model)
      ensures Contents() == LuaAcquireIn(old(Contents()), order, now, maxConcurrency, model)
    {
      ghost var s := Contents();
      var totalWeight;
      selected, totalWeight := RaiseListed(order, now, maxConcurrency, model);
      if selected == "" {
        return;
      }
      WinnerPays(s, order, now, maxConcurrency, model);
      currentWeights := currentWeights[selected := currentWeights[selected] - totalWeight];
      concurrency := concurrency[selected := CountOf(concurrency, selected) + 1];
    }
  }

  lemma AdmissionIgnoresWeights(s: Store, weights: map<string, real>, key: string, now: int, limit: int, model: string)
    ensures LuaAdmits(s.(currentWeights := weights), key, now, limit, model) == LuaAdmits(s, key, now, limit, model)
  {}

  /** What one listed member contributes. */
  lemma ListedAt(s: Store, order: seq<string>, mask: seq<bool>, now: int, limit: int, model: string, i: nat)
    requires mask == OrderMask(s, order, now, limit, model) && i < |order| && order[i] in s.activeKeys
    ensures |mask| == |order| == |Masked(OrderWeights(s, order), mask)|
    ensures mask[i] == LuaAdmits(s, order[i], now, limit, model)
    ensures Masked(OrderWeights(s, order), mask)[i] == if mask[i] then s.activeKeys[order[i]] else 0.0
    ensures mask[i] ==> OrderRaised(s, order, now, limit, model)[i] == WeightAt(s.currentWeights, order[i]) + s.activeKeys[order[i]]
  {
    hide LuaAdmits;
  }

  /** Taking an amount from one listed member's entry. */
  lemma EntryPays(hash: map<string, real>, order: seq<string>, mask: seq<bool>, vals: seq<real>, i: nat, amount: real)
    requires |order| == |mask| == |vals| && i < |order| && mask[i]
    requires forall i, j :: 0 <= i < j < |order| ==> order[i] != order[j]
    ensures var h := HashTo(hash, order, mask, vals, |order|);
            && order[i] in h
            && h[order[i] := h[order[i]] - amount] == HashTo(hash, order, mask, vals[i := vals[i] - amount], |order|)
  {
    hide HashTo;
    HashRead(hash, order, mask, vals, |order|, i);
    HashOverwrite(hash, order, mask, vals, |order|, i, vals[i] - amount);
  }

  lemma WinnerPays(s: Store, order: seq<string>, now: int, maxConcurrency: int, model: string)
    requires Enumerates(order, s.activeKeys)
    requires LuaResult(s, order, now, maxConcurrency, model) != ""
    ensures var mask := OrderMask(s, order, now, maxConcurrency, model);
            var hash := HashTo(s.currentWeights, order, mask, OrderRaised(s, order, now, maxConcurrency, model), |order|);
            var key := LuaResult(s, order, now, maxConcurrency, model);
            && key in hash
            && hash[key := hash[key] - Total(OrderWeights(s, order), mask)]
                 == LuaAcquireIn(s, order, now, maxConcurrency, model).currentWeights
  {
    hide HashTo, BestTo, Total, OrderMask, Raise, OrderWeights, OrderCurrents;
    var mask := OrderMask(s, order, now, maxConcurrency, model);
    var raised := OrderRaised(s, order, now, maxConcurrency, model);
    var best := LuaIndex(s, order, now, maxConcurrency, model);
    var total := Total(OrderWeights(s, order), mask);
    EntryPays(s.currentWeights, order, mask, raised, best, total);
  }

  // ---- agreement with the local scheduler ------------------------------------------------------

  /** The two implementations are in the same situation at time now. */
  ghost predicate Corresponds(st: State, s: Store, now: int) {
    && DistinctKeys(st.active)
    && (forall k :: k in s.activeKeys <==> IndexOf(st.active, k) < |st.active|)
    && (forall i :: 0 <= i < |st.active| ==>
          && st.active[i].key in s.activeKeys
          && s.activeKeys[st.active[i].key] == st.active[i].weight
          && WeightAt(s.currentWeights, st.active[i].key) == st.active[i].currentWeight)
    && st.dead == s.deadKeys
    && Expire(st.cooling, now) == Expire(s.coolingKeys, now)
    && Expire(st.modelCooling, now) == Expire(s.modelCoolingKeys, now)
    && (forall k :: CountOf(st.concurrency, k) == CountOf(s.concurrency, k))
  }

  lemma BlocksIsExpire(m: map<string, int>, k: string, now: int)
    ensures Blocks(m, k, now) <==> k in Expire(m, now)
  {}

  /** They admit the same keys. */
  lemma SameAdmission(st: State, s: Store, key: string, now: int, limit: int, model: string)
    requires Corresponds(st, s, now)
    ensures Admits(st, key, now, limit, model) <==> LuaAdmits(s, key, now, limit, model)
  {
    BlocksIsExpire(st.cooling, key, now);
    BlocksIsExpire(s.coolingKeys, key, now);
    BlocksIsExpire(st.modelCooling, PairField(key, model), now);
    BlocksIsExpire(s.modelCoolingKeys, PairField(key, model), now);
  }

  function KeysOf(es: seq<KeyEntry>): (r: seq<string>)
    ensures |r| == |es|
  {
    seq(|es|, i requires 0 <= i < |es| => es[i].key)
  }

  // -- the total does not depend on the order of the keys --

  function SumOver(g: map<string, real>, keys: seq<string>): real {
    if keys == [] then 0.0 else SumOver(g, keys[..|keys| - 1]) + WeightAt(g, keys[|keys| - 1])
  }

  lemma {:induction false} SumOverRemove(g: map<string, real>, keys: seq<string>, i: nat)
    requires i < |keys|
    ensures SumOver(g, keys) == WeightAt(g, keys[i]) + SumOver(g, keys[..i] + keys[i + 1..])
  {
    var n := |keys| - 1;
    if i == n {
      assert keys[..n] + keys[n + 1..] == keys[..n];
    } else {
      SumOverRemove(g, keys[..n], i);
      var rest := keys[..i] + keys[i + 1..];
      assert rest[..n - 1] == keys[..n][..i] + keys[..n][i + 1..];
      assert rest[n - 1] == keys[n];
    }
  }

  lemma WithoutOne<T>(b: seq<T>, i: nat)
    requires i < |b|
    ensures multiset(b[..i] + b[i + 1..]) == multiset(b) - multiset{b[i]}
  {
    assert b == b[..i] + ([b[i]] + b[i + 1..]);
  }

  lemma FindLast<T>(a: seq<T>, b: seq<T>) returns (i: nat)
    requires a != [] && multiset(a) == multiset(b)
    ensures i < |b| && b[i] == a[|a| - 1]
    ensures multiset(a[..|a| - 1]) == multiset(b[..i] + b[i + 1..])
  {
    var n := |a| - 1;
    WithoutOne(a, n);
    assert a[..n] + a[n + 1..] == a[..n];
    assert a[n] in multiset(b);
    i :| 0 <= i < |b| && b[i] == a[n];
    WithoutOne(b, i);
  }

  lemma {:induction false} SumOverPermuted(g: map<string, real>, a: seq<string>, b: seq<string>)
    requires multiset(a) == multiset(b)
    ensures SumOver(g, a) == SumOver(g, b)
  {
    if a == [] {
      assert |multiset(b)| == 0;
    } else {
      var i := FindLast(a, b);
      SumOverRemove(g, b, i);
      SumOverPermuted(g, a[..|a| - 1], b[..i] + b[i + 1..]);
    }
  }

  lemma {:induction false} SumOverIsSum(g: map<string, real>, keys: seq<string>, vals: seq<real>, n: nat)
    requires n <= |keys| == |vals|
    requires forall i :: 0 <= i < |keys| ==> vals[i] == WeightAt(g, keys[i])
    ensures SumTo(vals, n) == SumOver(g, keys[..n])
  {
    if n > 0 {
      SumOverIsSum(g, keys, vals, n - 1);
      assert keys[..n][..n - 1] == keys[..n - 1];
    }
  }

  lemma {:induction false} DistinctOnce(a: seq<string>, x: string)
    requires forall i, j :: 0 <= i < j < |a| ==> a[i] != a[j]
    ensures multiset(a)[x] == if x in a then 1 else 0
  {
    if a != [] {
      var n := |a| - 1;
      assert a == a[..n] + [a[n]];
      DistinctOnce(a[..n], x);
    }
  }

  /** ZRANGE lists the local keys in some order. */
  lemma OrderIsPermutation(st: State, s: Store, now: int, order: seq<string>)
    requires Corresponds(st, s, now) && Enumerates(order, s.activeKeys)
    ensures multiset(order) == multiset(KeysOf(st.active))
    ensures |order| == |st.active|
  {
    var keys := KeysOf(st.active);
    forall x ensures multiset(order)[x] == multiset(keys)[x] {
      DistinctOnce(order, x);
      DistinctOnce(keys, x);
      assert x in order <==> x in s.activeKeys;
      if x in s.activeKeys {
        assert keys[IndexOf(st.active, x)] == x;
      }
      if x in keys {
        var i :| 0 <= i < |keys| && keys[i] == x;
        assert st.active[i].key in s.activeKeys;
      }
    }
    assert |multiset(order)| == |order| && |multiset(keys)| == |keys|;
  }

  // -- one step --

  /** Positions of one and the same key, seen by the two implementations. */
  lemma SamePosition(st: State, s: Store, order: seq<string>, now: int, limit: int, model: string, i: nat, j: nat)
    requires Corresponds(st, s, now) && Enumerates(order, s.activeKeys)
    requires i < |st.active| && j < |order| && st.active[i].key == order[j]
    ensures EligibleMask(st, now, limit, model)[i] == OrderMask(s, order, now, limit, model)[j]
    ensures Raise(Currents(st.active), Weights(st.active), EligibleMask(st, now, limit, model))[i]
         == OrderRaised(s, order, now, limit, model)[j]
    ensures Next(Currents(st.active), Weights(st.active), EligibleMask(st, now, limit, model))[i] == st.active[i].currentWeight
         || EligibleMask(st, now, limit, model)[i]
  {
    SameAdmission(st, s, order[j], now, limit, model);
    hide Total, Admits, LuaAdmits, BestTo, IndexOf;
  }

  /** The weight each admitted member brings. */
  function AdmittedWeights(s: Store, now: int, limit: int, model: string): map<string, real> {
    map k | k in s.activeKeys && LuaAdmits(s, k, now, limit, model) :: s.activeKeys[k]
  }

  lemma LocalTotal(st: State, s: Store, now: int, limit: int, model: string)
    requires Corresponds(st, s, now)
    ensures Total(Weights(st.active), EligibleMask(st, now, limit, model))
         == SumOver(AdmittedWeights(s, now, limit, model), KeysOf(st.active))
  {
    var g := AdmittedWeights(s, now, limit, model);
    var keys := KeysOf(st.active);
    var vals := Masked(Weights(st.active), EligibleMask(st, now, limit, model));
    forall i | 0 <= i < |keys| ensures vals[i] == WeightAt(g, keys[i]) {
      SameAdmission(st, s, keys[i], now, limit, model);
    }
    hide SumTo, SumOver, Admits, LuaAdmits;
    SumOverIsSum(g, keys, vals, |keys|);
    assert keys[..|keys|] == keys;
  }

  lemma ListedTotal(s: Store, order: seq<string>, now: int, limit: int, model: string)
    requires Enumerates(order, s.activeKeys)
    ensures Total(OrderWeights(s, order), OrderMask(s, order, now, limit, model))
         == SumOver(AdmittedWeights(s, now, limit, model), order)
  {
    hide SumTo, SumOver, LuaAdmits;
    var g := AdmittedWeights(s, now, limit, model);
    var vals := Masked(OrderWeights(s, order), OrderMask(s, order, now, limit, model));
    forall i | 0 <= i < |order| ensures vals[i] == WeightAt(g, order[i]) {
      assert order[i] in s.activeKeys;
    }
    SumOverIsSum(g, order, vals, |order|);
    assert order[..|order|] == order;
  }

  /** Both subtract the same total. */
  lemma SameTotal(st: State, s: Store, order: seq<string>, now: int, limit: int, model: string)
    requires Corresponds(st, s, now) && Enumerates(order, s.activeKeys)
    ensures Total(Weights(st.active), EligibleMask(st, now, limit, model))
         == Total(OrderWeights(s, order), OrderMask(s, order, now, limit, model))
  {
    hide *;
    LocalTotal(st, s, now, limit, model);
    ListedTotal(s, order, now, limit, model);
    OrderIsPermutation(st, s, now, order);
    SumOverPermuted(AdmittedWeights(s, now, limit, model), KeysOf(st.active), order);
  }

  // -- one whole call --

  function LocalRaised(st: State, now: int, limit: int, model: string): (r: seq<real>)
    ensures |r| == |st.active|
  {
    Raise(Currents(st.active), Weights(st.active), EligibleMask(st, now, limit, TrimSpace(model)))
  }

  /** Only one eligible key attains the maximum of the raised weights. */
  ghost predicate UniqueMaximum(st: State, now: int, limit: int, model: string) {
    var mask := EligibleMask(st, now, limit, TrimSpace(model));
    var raised := LocalRaised(st, now, limit, model);
    var best := AcquireIndex(st, now, limit, model);
    best >= 0 ==> forall j :: 0 <= j < |raised| && mask[j] && raised[j] == raised[best] ==> j == best
  }

  /** Where order lists a local key, and the other way round. */
  lemma Located(st: State, s: Store, order: seq<string>, now: int, i: nat) returns (j: nat)
    requires Corresponds(st, s, now) && Enumerates(order, s.activeKeys) && i < |st.active|
    ensures j < |order| && order[j] == st.active[i].key
  {
    assert st.active[i].key in s.activeKeys;
    j :| 0 <= j < |order| && order[j] == st.active[i].key;
  }

  lemma Relocated(st: State, s: Store, order: seq<string>, now: int, j: nat) returns (i: nat)
    requires Corresponds(st, s, now) && Enumerates(order, s.activeKeys) && j < |order|
    ensures i < |st.active| && order[j] == st.active[i].key
  {
    assert order[j] in s.activeKeys;
    i := IndexOf(st.active, order[j]);
  }

  /** From the same situation both select somebody or neither does, and both select a maximum of the
      raised weights: a maximum that is unique is the same key. Go trims the model first. */
  lemma SameWinner(st: State, s: Store, order: seq<string>, now: int, limit: int, model: string)
    requires Corresponds(st, s, now) && Enumerates(order, s.activeKeys)
    ensures var i := AcquireIndex(st, now, limit, model);
            var j := LuaIndex(s, order, now, limit, TrimSpace(model));
            && (i < 0 <==> j < 0)
            && (i >= 0 ==>
                  && LocalRaised(st, now, limit, model)[i] == OrderRaised(s, order, now, limit, TrimSpace(model))[j]
                  && (UniqueMaximum(st, now, limit, model) ==> st.active[i].key == order[j]))
  {
    var m := TrimSpace(model);
    var i := AcquireIndex(st, now, limit, model);
    var j := LuaIndex(s, order, now, limit, m);
    hide Total, EligibleMask, OrderMask, Raise, OrderRaised, Corresponds, Enumerates, TrimSpace;
    if i >= 0 {
      var j' := Located(st, s, order, now, i);
      SamePosition(st, s, order, now, limit, m, i, j');
      assert j >= 0;
    }
    if j >= 0 {
      var i' := Relocated(st, s, order, now, j);
      SamePosition(st, s, order, now, limit, m, i', j);
      assert i >= 0;
    }
  }

  lemma LocalFrame(st: State, now: int, limit: int, model: string)
    requires AcquireResult(st, now, limit, model) != ""
    ensures var st' := AcquireIn(st, now, limit, model);
            var key := AcquireResult(st, now, limit, model);
            && |st'.active| == |st.active|
            && (forall i :: 0 <= i < |st.active| ==>
                  st'.active[i].key == st.active[i].key && st'.active[i].weight == st.active[i].weight)
            && st'.dead == st.dead
            && Expire(st'.cooling, now) == Expire(st.cooling, now)
            && Expire(st'.modelCooling, now) == Expire(st.modelCooling, now)
            && st'.concurrency == st.concurrency[key := CountOf(st.concurrency, key) + 1]
  {
    SweptStillExpires(st.cooling, now);
    SweptStillExpires(st.modelCooling, now);
    hide TrimSpace, EligibleMask, Next, AcquireIndex;
  }

  lemma LuaFrame(s: Store, order: seq<string>, now: int, limit: int, model: string)
    requires LuaResult(s, order, now, limit, model) != ""
    ensures var s' := LuaAcquireIn(s, order, now, limit, model);
            var key := LuaResult(s, order, now, limit, model);
            && s' == s.(currentWeights := s'.currentWeights,
                        concurrency := s.concurrency[key := CountOf(s.concurrency, key) + 1])
  {}

  /** If both select one (non-empty) key, they reach the same weights and counters. */
  lemma SameOutcome(st: State, s: Store, order: seq<string>, now: int, limit: int, model: string)
    requires Corresponds(st, s, now) && Enumerates(order, s.activeKeys)
    requires AcquireResult(st, now, limit, model) == LuaResult(s, order, now, limit, TrimSpace(model)) != ""
    ensures Corresponds(AcquireIn(st, now, limit, model), LuaAcquireIn(s, order, now, limit, TrimSpace(model)), now)
  {
    var st', s' := AcquireIn(st, now, limit, model), LuaAcquireIn(s, order, now, limit, TrimSpace(model));
    hide IndexOf, AcquireIn, LuaAcquireIn, AcquireResult, LuaResult, TrimSpace, Expire, Enumerates;
    LocalFrame(st, now, limit, model);
    LuaFrame(s, order, now, limit, TrimSpace(model));
    forall k ensures k in s'.activeKeys <==> IndexOf(st'.active, k) < |st'.active| {
      SameKeysFound(st.active, st'.active, k);
    }
    forall i | 0 <= i < |st.active|
      ensures WeightAt(s'.currentWeights, st'.active[i].key) == st'.active[i].currentWeight
    {
      SameNewWeight(st, s, order, now, limit, model, i);
    }
    var key := AcquireResult(st, now, limit, model);
    assert CountOf(st.concurrency, key) == CountOf(s.concurrency, key);
    forall k ensures CountOf(st'.concurrency, k) == CountOf(s'.concurrency, k) {
      assert CountOf(st.concurrency, k) == CountOf(s.concurrency, k);
    }
  }

  lemma SweptStillExpires(m: map<string, int>, now: int)
    ensures Expire(Expire(m, now), now) == Expire(m, now)
  {}

  lemma SameKeysFound(es: seq<KeyEntry>, fs: seq<KeyEntry>, k: string)
    requires |es| == |fs| && forall i :: 0 <= i < |es| ==> es[i].key == fs[i].key
    ensures IndexOf(es, k) < |es| <==> IndexOf(fs, k) < |fs|
  {
    var i, j := IndexOf(es, k), IndexOf(fs, k);
    hide IndexTo;
    if i < |es| { assert fs[i].key == k; }
    if j < |fs| { assert es[j].key == k; }
  }

  lemma SameNewWeight(st: State, s: Store, order: seq<string>, now: int, limit: int, model: string, i: nat)
    requires Corresponds(st, s, now) && Enumerates(order, s.activeKeys) && i < |st.active|
    requires AcquireResult(st, now, limit, model) == LuaResult(s, order, now, limit, TrimSpace(model)) != ""
    ensures WeightAt(LuaAcquireIn(s, order, now, limit, TrimSpace(model)).currentWeights, st.active[i].key)
         == AcquireIn(st, now, limit, model).active[i].currentWeight
  {
    hide Total, HashTo, BestTo, EligibleMask, OrderMask, TrimSpace, IndexOf;
    var m := TrimSpace(model);
    var mask := OrderMask(s, order, now, limit, m);
    var rotated := Next(OrderCurrents(s, order), OrderWeights(s, order), mask);
    var j := Located(st, s, order, now, i);
    SamePosition(st, s, order, now, limit, m, i, j);
    SameTotal(st, s, order, now, limit, m);
    HashRead(s.currentWeights, order, mask, rotated, |order|, j);
  }

  // -- who wins a tie --

  /** An admitted local entry whose raised weight is the winner's. */
  ghost predicate Ties(st: State, now: int, limit: int, model: string, k: nat) {
    && k < |st.active| && AcquireIndex(st, now, limit, model) >= 0
    && EligibleMask(st, now, limit, TrimSpace(model))[k]
    && LocalRaised(st, now, limit, model)[k] == LocalRaised(st, now, limit, model)[AcquireIndex(st, now, limit, model)]
  }

  predicate ListedAs(st: State, order: seq<string>, k: int, p: int) {
    0 <= k < |st.active| && 0 <= p < |order| && order[p] == st.active[k].key
  }

  /** The local winner is listed before every other key it ties with. */
  ghost predicate WinnerListedFirst(st: State, order: seq<string>, now: int, limit: int, model: string) {
    var i := AcquireIndex(st, now, limit, model);
    forall k: nat, p, q :: Ties(st, now, limit, model, k) && ListedAs(st, order, i, p) && ListedAs(st, order, k, q) ==> p <= q
  }

  /** What the script sees where it lists a local entry. */
  lemma ListedTie(st: State, s: Store, order: seq<string>, now: int, limit: int, model: string, k: nat, q: nat)
    requires Corresponds(st, s, now) && Enumerates(order, s.activeKeys) && ListedAs(st, order, k, q)
    ensures EligibleMask(st, now, limit, TrimSpace(model))[k] == OrderMask(s, order, now, limit, TrimSpace(model))[q]
    ensures LocalRaised(st, now, limit, model)[k] == OrderRaised(s, order, now, limit, TrimSpace(model))[q]
  {
    hide Corresponds, Enumerates, EligibleMask, OrderMask, Raise, OrderRaised, TrimSpace;
    SamePosition(st, s, order, now, limit, TrimSpace(model), k, q);
  }

  /** No admitted member listed before the script's winner has its raised weight. */
  lemma ScriptTakesFirst(s: Store, order: seq<string>, now: int, limit: int, model: string, q: nat)
    requires LuaIndex(s, order, now, limit, model) >= 0 && q < |order| && OrderMask(s, order, now, limit, model)[q]
    requires OrderRaised(s, order, now, limit, model)[q]
          == OrderRaised(s, order, now, limit, model)[LuaIndex(s, order, now, limit, model)]
    ensures LuaIndex(s, order, now, limit, model) <= q
  {
    hide OrderMask, OrderRaised;
  }

  lemma ScriptAdmitsWinner(s: Store, order: seq<string>, now: int, limit: int, model: string)
    requires LuaIndex(s, order, now, limit, model) >= 0
    ensures OrderMask(s, order, now, limit, model)[LuaIndex(s, order, now, limit, model)]
  {
    hide OrderMask, OrderRaised;
  }

  lemma WinnerTies(st: State, now: int, limit: int, model: string)
    requires AcquireIndex(st, now, limit, model) >= 0
    ensures Ties(st, now, limit, model, AcquireIndex(st, now, limit, model))
  {
    hide EligibleMask, Raise, TrimSpace;
  }

  /** The script's winner ties with the local one; here is where both are listed. */
  lemma BothListed(st: State, s: Store, order: seq<string>, now: int, limit: int, model: string) returns (p: nat, k: nat)
    requires Corresponds(st, s, now) && Enumerates(order, s.activeKeys) && AcquireIndex(st, now, limit, model) >= 0
    ensures var j := LuaIndex(s, order, now, limit, TrimSpace(model));
            && j >= 0 && ListedAs(st, order, AcquireIndex(st, now, limit, model), p) && ListedAs(st, order, k, j)
            && Ties(st, now, limit, model, k)
            && OrderRaised(s, order, now, limit, TrimSpace(model))[j] == LocalRaised(st, now, limit, model)[AcquireIndex(st, now, limit, model)]
  {
    var i, j := AcquireIndex(st, now, limit, model), LuaIndex(s, order, now, limit, TrimSpace(model));
    hide Corresponds, Enumerates, EligibleMask, OrderMask, Raise, OrderRaised, TrimSpace, AcquireIndex;
    SameWinner(st, s, order, now, limit, model);
    p := Located(st, s, order, now, i);
    k := Relocated(st, s, order, now, j);
    ListedTie(st, s, order, now, limit, model, k, j);
    ScriptAdmitsWinner(s, order, now, limit, TrimSpace(model));
  }

  /** The script wins no later than any tied key is listed. */
  lemma ScriptIsFirst(st: State, s: Store, order: seq<string>, now: int, limit: int, model: string, k: nat, q: nat)
    requires Corresponds(st, s, now) && Enumerates(order, s.activeKeys)
    requires Ties(st, now, limit, model, k) && ListedAs(st, order, k, q)
    ensures 0 <= LuaIndex(s, order, now, limit, TrimSpace(model)) <= q
  {
    var p, l := BothListed(st, s, order, now, limit, model);
    hide Corresponds, Enumerates, EligibleMask, OrderMask, LocalRaised, OrderRaised, TrimSpace, AcquireIndex, LuaIndex;
    ListedTie(st, s, order, now, limit, model, k, q);
    ScriptTakesFirst(s, order, now, limit, TrimSpace(model), q);
  }

  /** With somebody admitted, the two hand out the same key exactly when the local winner is listed
      before every other admitted key whose raised weight ties with it. */
  lemma TieDecides(st: State, s: Store, order: seq<string>, now: int, limit: int, model: string)
    requires Corresponds(st, s, now) && Enumerates(order, s.activeKeys) && AcquireIndex(st, now, limit, model) >= 0
    ensures AcquireResult(st, now, limit, model) == LuaResult(s, order, now, limit, TrimSpace(model))
       <==> WinnerListedFirst(st, order, now, limit, model)
  {
    var i, j := AcquireIndex(st, now, limit, model), LuaIndex(s, order, now, limit, TrimSpace(model));
    var p, l := BothListed(st, s, order, now, limit, model);
    hide Corresponds, Ties, TrimSpace, AcquireIndex, LuaIndex;
    WinnerTies(st, now, limit, model);
    ScriptIsFirst(st, s, order, now, limit, model, i, p);
    if AcquireResult(st, now, limit, model) == LuaResult(s, order, now, limit, TrimSpace(model)) {
      forall k: nat, p', q | Ties(st, now, limit, model, k) && ListedAs(st, order, i, p') && ListedAs(st, order, k, q)
        ensures p' <= q
      {
        ScriptIsFirst(st, s, order, now, limit, model, k, q);
      }
    }
  }

  // -- what a call leaves behind --

  lemma {:induction false} HashNothing(hash: map<string, real>, order: seq<string>, mask: seq<bool>, vals: seq<real>, n: nat)
    requires n <= |order| == |mask| == |vals| && forall j :: 0 <= j < n ==> !mask[j]
    ensures HashTo(hash, order, mask, vals, n) == hash
  {
    if n > 0 {
      HashNothing(hash, order, mask, vals, n - 1);
    }
  }

  lemma ScriptSelectsNobody(s: Store, order: seq<string>, now: int, limit: int, model: string)
    requires LuaIndex(s, order, now, limit, model) < 0
    ensures LuaAcquireIn(s, order, now, limit, model) == s
  {
    hide OrderRaised, OrderMask, HashTo;
    HashNothing(s.currentWeights, order, OrderMask(s, order, now, limit, model), OrderRaised(s, order, now, limit, model), |order|);
  }

  lemma SweepCorresponds(st: State, s: Store, now: int)
    requires Corresponds(st, s, now)
    ensures Corresponds(Sweep(st, now), s, now)
  {
    SweptStillExpires(st.cooling, now);
    SweptStillExpires(st.modelCooling, now);
    hide Expire, IndexOf;
  }

  /** A key only one of the two has leased gives them away. */
  lemma CountersDiffer(st: State, s: Store, order: seq<string>, now: int, limit: int, model: string)
    requires Corresponds(st, s, now) && AcquireIndex(st, now, limit, model) >= 0
    requires LuaIndex(s, order, now, limit, TrimSpace(model)) >= 0
    requires !(AcquireResult(st, now, limit, model) == LuaResult(s, order, now, limit, TrimSpace(model)) != "")
    ensures !Corresponds(AcquireIn(st, now, limit, model), LuaAcquireIn(s, order, now, limit, TrimSpace(model)), now)
  {
    hide AcquireIndex, LuaIndex, TrimSpace, EligibleMask, OrderMask, OrderRaised, Next, HashTo, Expire, IndexOf, WithCurrents;
    var key := AcquireResult(st, now, limit, model);
    assert CountOf(st.concurrency, key) == CountOf(s.concurrency, key);
    assert CountOf(AcquireIn(st, now, limit, model).concurrency, key) == CountOf(st.concurrency, key) + 1;
    assert CountOf(LuaAcquireIn(s, order, now, limit, TrimSpace(model)).concurrency, key) == CountOf(s.concurrency, key);
  }

  /** After one call the two are in one situation again exactly when nobody was admitted, or both handed
      out one key and its name is not empty. */
  lemma StatesAgreeIff(st: State, s: Store, order: seq<string>, now: int, limit: int, model: string)
    requires Corresponds(st, s, now) && Enumerates(order, s.activeKeys)
    ensures Corresponds(AcquireIn(st, now, limit, model), LuaAcquireIn(s, order, now, limit, TrimSpace(model)), now)
       <==> AcquireIndex(st, now, limit, model) < 0
            || AcquireResult(st, now, limit, model) == LuaResult(s, order, now, limit, TrimSpace(model)) != ""
  {
    SameWinner(st, s, order, now, limit, model);
    hide Corresponds, Enumerates, AcquireIndex, LuaIndex, AcquireResult, LuaResult, LuaAcquireIn, TrimSpace;
    if AcquireIndex(st, now, limit, model) < 0 {
      ScriptSelectsNobody(s, order, now, limit, TrimSpace(model));
      SweepCorresponds(st, s, now);
    } else if AcquireResult(st, now, limit, model) == LuaResult(s, order, now, limit, TrimSpace(model)) != "" {
      SameOutcome(st, s, order, now, limit, model);
    } else {
      CountersDiffer(st, s, order, now, limit, model);
    }
  }

  /** When the maximum is unique one call returns the same key, and leaves the same situation unless that
      key has the empty name, which the script mistakes for nobody. */
  lemma ImplementationsAgree(st: State, s: Store, order: seq<string>, now: int, limit: int, model: string)
    requires Corresponds(st, s, now) && Enumerates(order, s.activeKeys) && UniqueMaximum(st, now, limit, model)
    ensures AcquireResult(st, now, limit, model) == LuaResult(s, order, now, limit, TrimSpace(model))
    ensures Corresponds(AcquireIn(st, now, limit, model), LuaAcquireIn(s, order, now, limit, TrimSpace(model)), now)
       <==> AcquireIndex(st, now, limit, model) < 0 || AcquireResult(st, now, limit, model) != ""
  {
    if AcquireIndex(st, now, limit, model) >= 0 {
      UniqueIsFirst(st, s, order, now, limit, model);
    }
    SameWinner(st, s, order, now, limit, model);
    hide Corresponds, Enumerates, AcquireIndex, LuaIndex, AcquireIn, LuaAcquireIn, TrimSpace, UniqueMaximum, WinnerListedFirst;
    if AcquireIndex(st, now, limit, model) >= 0 {
      TieDecides(st, s, order, now, limit, model);
    }
    StatesAgreeIff(st, s, order, now, limit, model);
  }

  lemma UniqueIsFirst(st: State, s: Store, order: seq<string>, now: int, limit: int, model: string)
    requires Enumerates(order, s.activeKeys) && AcquireIndex(st, now, limit, model) >= 0 && UniqueMaximum(st, now, limit, model)
    ensures WinnerListedFirst(st, order, now, limit, model)
  {
    hide AcquireIndex, LocalRaised, EligibleMask, TrimSpace;
  }

  /** They agree on ties too if the local list happens to be in ZRANGE order. */
  lemma SameOrderAgrees(st: State, s: Store, now: int, limit: int, model: string)
    requires Corresponds(st, s, now) && Enumerates(KeysOf(st.active), s.activeKeys)
    ensures AcquireResult(st, now, limit, model) == LuaResult(s, KeysOf(st.active), now, limit, TrimSpace(model))
  {
    var order := KeysOf(st.active);
    SameWinner(st, s, order, now, limit, model);
    if AcquireIndex(st, now, limit, model) >= 0 {
      FirstOfTied(st, s, now, limit, model);
      hide *;
      TieDecides(st, s, order, now, limit, model);
    }
  }

  lemma FirstOfTied(st: State, s: Store, now: int, limit: int, model: string)
    requires Enumerates(KeysOf(st.active), s.activeKeys) && AcquireIndex(st, now, limit, model) >= 0
    ensures WinnerListedFirst(st, KeysOf(st.active), now, limit, model)
  {
    hide EligibleMask, Raise, TrimSpace;
    var order := KeysOf(st.active);
    forall k: nat, p, q | Ties(st, now, limit, model, k) && ListedAs(st, order, AcquireIndex(st, now, limit, model), p)
        && ListedAs(st, order, k, q)
      ensures p <= q
    {
      assert order[k] == order[q] && order[AcquireIndex(st, now, limit, model)] == order[p];
    }
  }

  /** Such a tie: two equal keys registered as b, a are listed by ZRANGE as a, b, and the two
      implementations hand out different keys. */
  lemma TieMayDiffer()
    ensures var st := State([KeyEntry("b", 1.0, 1.0, 1.0, 0.0), KeyEntry("a", 1.0, 1.0, 1.0, 0.0)], map[], map[], {}, map[]);
            var s := Store(map["a" := 1.0, "b" := 1.0], {}, map[], map[], map[], map[]);
            && Corresponds(st, s, 0) && Enumerates(["a", "b"], s.activeKeys)
            && AcquireIndex(st, 0, 1, "") == 0 && st.active[0].key == "b"
            && LuaIndex(s, ["a", "b"], 0, 1, "") == 0
  {
    var es := [KeyEntry("b", 1.0, 1.0, 1.0, 0.0), KeyEntry("a", 1.0, 1.0, 1.0, 0.0)];
    var st := State(es, map[], map[], {}, map[]);
    var s := Store(map["a" := 1.0, "b" := 1.0], {}, map[], map[], map[], map[]);
    hide IndexTo, BestTo;
    TwoCorrespond(es, st, s);
    TwoEqual(LocalRaised(st, 0, 1, ""), EligibleMask(st, 0, 1, ""));
    TwoEqual(OrderRaised(s, ["a", "b"], 0, 1, ""), OrderMask(s, ["a", "b"], 0, 1, ""));
    hide Corresponds;
  }

  lemma TwoCorrespond(es: seq<KeyEntry>, st: State, s: Store)
    requires es == [KeyEntry("b", 1.0, 1.0, 1.0, 0.0), KeyEntry("a", 1.0, 1.0, 1.0, 0.0)]
    requires st == State(es, map[], map[], {}, map[])
    requires s == Store(map["a" := 1.0, "b" := 1.0], {}, map[], map[], map[], map[])
    ensures Corresponds(st, s, 0)
  {
    hide IndexOf;
    forall k { IndexOfTwo(es, k); }
  }

  lemma IndexOfTwo(es: seq<KeyEntry>, k: string)
    requires |es| == 2 && es[0].key == "b" && es[1].key == "a"
    ensures IndexOf(es, k) == if k == "b" then 0 else if k == "a" then 1 else 2
  {
    hide IndexOf;
    IndexIsFirst(es, k, if k == "b" then 0 else if k == "a" then 1 else 2);
  }

  lemma TwoEqual(xs: seq<real>, mask: seq<bool>)
    requires |xs| == |mask| == 2 && mask[0] && mask[1] && xs[0] == xs[1]
    ensures Best(xs, mask) == 0
  {
    assert BestTo(xs, mask, 1) == 0;
  }
}
