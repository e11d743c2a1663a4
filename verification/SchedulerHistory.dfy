/** What the scheduler answers and owes, read off the history of operations. */
module SchedulerHistory {
  import opened Optional
  import opened Text
  import opened Swrr
  import opened Scheduling
  import opened SchedulerRuns
  import opened SchedulerFairness

  // ---- who gets a lease ------------------------------------------------------------------------

  /** A key with a place in the pool, by history. */
  predicate Configured(ops: seq<Op>, n: nat, key: string)
    requires n <= |ops|
  {
    LatestBase(ops, n, key).Some?
  }

  lemma PoolFromHistory(ops: seq<Op>, n: nat, key: string)
    requires n <= |ops|
    ensures IndexOf(RunTo(Empty, ops, n).active, key) < |RunTo(Empty, ops, n).active| <==> Configured(ops, n, key)
  {
    hide RunTo, LatestBase, LatestMultiplier, IndexOf, Effective;
    WeightFromHistory(ops, n, key);
  }

  /** Nothing in the history speaks against handing the key out, and it has room. */
  predicate Available(ops: seq<Op>, n: nat, key: string, now: int, limit: int, model: string)
    requires n <= |ops|
  {
    && LatestBase(ops, n, key).Some?
    && !DeadByHistory(ops, n, key)
    && !CoolsAt(LatestCool(ops, n, key), now)
    && (model != "" ==> !CoolsAt(LatestPairCool(ops, n, key + "|" + model), now))
    && CountOf(RunTo(Empty, ops, n).concurrency, key) < limit
  }

  /** A specific key is granted exactly when it has a name, is configured since the last reset, is
      neither dead nor cooling, alone or for the model, and is below a limit of at least one. */
  lemma GrantedFromHistory(ops: seq<Op>, n: nat, now: int, key: string, limit: int, model: string)
    requires n <= |ops| && ClockWithin(ops, n, now)
    ensures TryGrants(RunTo(Empty, ops, n), now, key, limit, model) <==>
              TrimSpace(key) != "" && Available(ops, n, TrimSpace(key), now, if limit <= 0 then 1 else limit, TrimSpace(model))
  {
    hide RunTo, LatestBase, DeadByHistory, LatestCool, LatestPairCool, IndexOf, TrimSpace, Admits;
    var k := TrimSpace(key);
    PoolFromHistory(ops, n, k);
    AdmissionFromHistory(ops, n, k, now, AtLeastOne(limit), TrimSpace(model));
  }

  /** An acquire hands out some key exactly when one is available, and then an available one. */
  lemma AcquiredFromHistory(ops: seq<Op>, n: nat, now: int, limit: int, model: string)
    requires n <= |ops| && ClockWithin(ops, n, now)
    ensures var st := RunTo(Empty, ops, n);
            && (AcquireIndex(st, now, limit, model) >= 0 <==> exists k :: Available(ops, n, k, now, limit, TrimSpace(model)))
            && (AcquireIndex(st, now, limit, model) >= 0 ==>
                  Available(ops, n, AcquireResult(st, now, limit, model), now, limit, TrimSpace(model)))
  {
    hide RunTo, Available, IndexTo, TrimSpace, Admits, BestTo;
    var st := RunTo(Empty, ops, n);
    var i := AcquireIndex(st, now, limit, model);
    if i >= 0 {
      AvailableIff(ops, n, st.active[i].key, now, limit, TrimSpace(model));
      InPool(st.active, st.active[i].key, i);
    } else {
      forall k ensures !Available(ops, n, k, now, limit, TrimSpace(model)) {
        AvailableIff(ops, n, k, now, limit, TrimSpace(model));
        var j := IndexOf(st.active, k);
        assert j < |st.active| ==> !EligibleMask(st, now, limit, TrimSpace(model))[j];
      }
    }
  }

  lemma InPool(es: seq<KeyEntry>, key: string, i: nat)
    requires i < |es| && es[i].key == key
    ensures IndexOf(es, key) < |es|
  {}

  lemma AvailableIff(ops: seq<Op>, n: nat, key: string, now: int, limit: int, model: string)
    requires n <= |ops| && ClockWithin(ops, n, now)
    ensures var st := RunTo(Empty, ops, n);
            Available(ops, n, key, now, limit, model) <==>
              IndexOf(st.active, key) < |st.active| && Admits(st, key, now, limit, model)
  {
    hide RunTo, LatestBase, DeadByHistory, LatestCool, LatestPairCool, IndexOf, Admits;
    PoolFromHistory(ops, n, key);
    AdmissionFromHistory(ops, n, key, now, limit, model);
  }

  /** In every run with a forward clock a lease goes to an available key. */
  lemma LeasesAreAvailable(ops: seq<Op>, i: nat)
    requires i < |ops| && Monotone(ops) && LeaseOf(RunTo(Empty, ops, i), ops[i]).Some?
    ensures var limit := if ops[i].Acquire? then ops[i].maxConcurrency else AtLeastOne(ops[i].maxConcurrency);
            Available(ops, i, LeaseOf(RunTo(Empty, ops, i), ops[i]).value, ops[i].now, limit, TrimSpace(ops[i].model))
  {
    hide RunTo, Available, TrimSpace, AcquireIndex, TryGrants;
    var op := ops[i];
    LeaseIsAcquire(RunTo(Empty, ops, i), op);
    if op.Acquire? {
      AcquiredFromHistory(ops, i, op.now, op.maxConcurrency, op.model);
    } else {
      GrantedFromHistory(ops, i, op.now, op.key, op.maxConcurrency, op.model);
    }
  }

  // ---- what a key owes -------------------------------------------------------------------------

  lemma {:induction false} KeysStayDistinct(ops: seq<Op>, n: nat)
    requires n <= |ops|
    ensures DistinctKeys(RunTo(Empty, ops, n).active)
  {
    hide Step;
    if n > 0 {
      KeysStayDistinct(ops, n - 1);
      StepKeepsDistinct(RunTo(Empty, ops, n - 1), ops[n - 1]);
    }
  }

  lemma StepKeepsDistinct(st: State, op: Op)
    requires DistinctKeys(st.active)
    ensures DistinctKeys(Step(st, op).active)
  {
    hide Step;
    if op.AddKey? {
      AddKeepsDistinct(st, op.key, op.weight);
      assert Step(st, op) == AddKeyTo(st, op.key, op.weight) by { StepIs(st, op); }
    } else if op.SetHealthMultiplier? {
      MultiplierKeepsDistinct(st, op.key, op.multiplier);
      assert Step(st, op) == SetMultiplierIn(st, op.key, op.multiplier) by { StepIs(st, op); }
    } else if op.Reset? {
      StepIs(st, op);
    } else {
      RotationKeepsEntries(st, op);
    }
  }

  lemma AddKeepsDistinct(st: State, key: string, weight: real)
    requires DistinctKeys(st.active)
    ensures DistinctKeys(AddKeyTo(st, key, weight).active)
  {
    hide Effective, IndexTo;
  }

  lemma MultiplierKeepsDistinct(st: State, key: string, multiplier: real)
    requires DistinctKeys(st.active)
    ensures DistinctKeys(SetMultiplierIn(st, key, multiplier).active)
  {
    hide TrimSpace, Effective, IndexTo, ClampHealthMultiplier;
  }

  /** The current weight of a key, 0 if it is not in the pool. */
  function Owed(es: seq<KeyEntry>, key: string): real {
    var i := IndexOf(es, key);
    if i < |es| then es[i].currentWeight else 0.0
  }

  /** What an acquire adds to and takes from the current weight of a key in the pool. */
  function Turn(st: State, op: Op, key: string): real
    requires op.Acquire?
  {
    var mask := EligibleMask(st, op.now, op.maxConcurrency, TrimSpace(op.model));
    var i := IndexOf(st.active, key);
    if i == |st.active| then 0.0
    else
      var earned := if Admits(st, key, op.now, op.maxConcurrency, TrimSpace(op.model)) then st.active[i].weight else 0.0;
      var paid := if LeaseOf(st, op) == Some(key) then Total(Weights(st.active), mask) else 0.0;
      earned - paid
  }

  lemma NextAt(cur: seq<real>, w: seq<real>, mask: seq<bool>, i: nat)
    requires |cur| == |w| == |mask| && i < |cur|
    ensures Next(cur, w, mask)[i]
         == cur[i] + (if mask[i] then w[i] else 0.0) - (if Best(Raise(cur, w, mask), mask) == i then Total(w, mask) else 0.0)
  {
    hide Total, BestTo;
    if Best(Raise(cur, w, mask), mask) < 0 {
      assert BestTo(Raise(cur, w, mask), mask, |cur|) == -1;
    }
  }

  lemma LeaseIsPick(st: State, op: Op, key: string)
    requires DistinctKeys(st.active) && op.Acquire? && IndexOf(st.active, key) < |st.active|
    ensures LeaseOf(st, op) == Some(key) <==> AcquireIndex(st, op.now, op.maxConcurrency, op.model) == IndexOf(st.active, key)
  {
    hide AcquireIndex, IndexTo;
  }

  lemma AcquireOwes(st: State, op: Op, key: string)
    requires DistinctKeys(st.active) && op.Acquire?
    ensures Owed(AcquireIn(st, op.now, op.maxConcurrency, op.model).active, key) == Owed(st.active, key) + Turn(st, op, key)
  {
    hide AcquireIn, TrimSpace, Admits, Total, Best, Next, IndexTo, LeaseOf, Raise;
    var mask := EligibleMask(st, op.now, op.maxConcurrency, TrimSpace(op.model));
    var after := AcquireIn(st, op.now, op.maxConcurrency, op.model).active;
    AcquireRotates(st, op.now, op.maxConcurrency, op.model);
    SameKeysSameIndex(after, st.active, key, |after|);
    var i := IndexOf(st.active, key);
    if i < |st.active| {
      assert Currents(after)[i] == after[i].currentWeight;
      NextAt(Currents(st.active), Weights(st.active), mask, i);
      LeaseIsPick(st, op, key);
    }
  }

  lemma MultiplierOwes(st: State, k: string, multiplier: real, key: string)
    ensures Owed(SetMultiplierIn(st, k, multiplier).active, key) == Owed(st.active, key)
  {
    hide TrimSpace, Effective, IndexTo, ClampHealthMultiplier;
    var after := SetMultiplierIn(st, k, multiplier).active;
    SameKeysSameIndex(after, st.active, key, |after|);
  }

  lemma DeathOwes(st: State, k: string, key: string)
    ensures Owed(MarkDeadIn(st, k).active, key) == if k == key then 0.0 else Owed(st.active, key)
  {
    hide IndexTo;
    var after := MarkDeadIn(st, k).active;
    SameKeysSameIndex(after, st.active, key, |after|);
  }

  lemma AddOwes(st: State, k: string, weight: real, key: string)
    ensures Owed(AddKeyTo(st, k, weight).active, key) == Owed(st.active, key)
  {
    hide Effective;
    var i, after := IndexOf(st.active, k), AddKeyTo(st, k, weight).active;
    if i < |st.active| {
      hide IndexTo;
      SameKeysSameIndex(after, st.active, key, |after|);
    } else {
      AppendIndex(st.active, KeyEntry(k, weight, 1.0, weight, 0.0), key, |st.active|);
    }
  }

  /** What the history makes a key owe: each acquire's turn, since the last reset or its last death. */
  function Debt(ops: seq<Op>, n: nat, key: string): real
    requires n <= |ops|
  {
    if n == 0 then 0.0
    else
      var op := ops[n - 1];
      if op.Reset? || op == MarkDead(key) then 0.0
      else Debt(ops, n - 1, key) + if op.Acquire? then Turn(RunTo(Empty, ops, n - 1), op, key) else 0.0
  }

  /** A key joins the pool owing nothing, a reset and its death clear what it owes, and otherwise only
      the acquires count: reloads and health updates in between leave its current weight alone. */
  lemma {:induction false} DebtFromHistory(ops: seq<Op>, n: nat, key: string)
    requires n <= |ops|
    ensures Owed(RunTo(Empty, ops, n).active, key) == Debt(ops, n, key)
  {
    hide Step, Owed, Turn;
    if n == 0 {
      NobodyOwes(key);
    } else {
      DebtFromHistory(ops, n - 1, key);
      KeysStayDistinct(ops, n - 1);
      OwedStep(RunTo(Empty, ops, n - 1), ops[n - 1], key);
    }
  }

  lemma NobodyOwes(key: string)
    ensures Owed([], key) == 0.0
  {}

  lemma OwedStep(st: State, op: Op, key: string)
    requires DistinctKeys(st.active)
    ensures Owed(Step(st, op).active, key)
         == if op.Reset? || op == MarkDead(key) then 0.0
            else Owed(st.active, key) + if op.Acquire? then Turn(st, op, key) else 0.0
  {
    hide Step, Owed, Turn, AcquireIn, AddKeyTo, MarkDeadIn, SetMultiplierIn;
    StepIs(st, op);
    NobodyOwes(key);
    match op
    case Acquire(_, _, _) => AcquireOwes(st, op, key);
    case AddKey(k, weight) => AddOwes(st, k, weight, key);
    case SetHealthMultiplier(k, multiplier) => MultiplierOwes(st, k, multiplier, key);
    case MarkDead(k) => DeathOwes(st, k, key);
    case _ =>
  }

  // ---- statistics ------------------------------------------------------------------------------

  /** Every key some operation names. */
  function Named(ops: seq<Op>, n: nat): set<string>
    requires n <= |ops|
  {
    if n == 0 then {}
    else Named(ops, n - 1) + if NamesKey(ops[n - 1]) then {ops[n - 1].key} else {}
  }

  predicate NamesKey(op: Op) {
    op.AddKey? || op.MarkCooling? || op.MarkDead?
  }

  lemma {:induction false} OnlyNamed(ops: seq<Op>, n: nat, key: string, now: int)
    requires n <= |ops|
    ensures LatestBase(ops, n, key).Some? || DeadByHistory(ops, n, key) || CoolsAt(LatestCool(ops, n, key), now) ==>
              key in Named(ops, n)
  {
    if n > 0 {
      OnlyNamed(ops, n - 1, key, now);
    }
  }

  function KeySet(es: seq<KeyEntry>): set<string> {
    if es == [] then {} else KeySet(es[..|es| - 1]) + {es[|es| - 1].key}
  }

  lemma {:induction false} KeySetIs(es: seq<KeyEntry>, key: string)
    ensures key in KeySet(es) <==> IndexOf(es, key) < |es|
    ensures DistinctKeys(es) ==> |KeySet(es)| == |es|
  {
    if es != [] {
      var front, last := es[..|es| - 1], es[|es| - 1];
      KeySetIs(front, key);
      KeySetIs(front, last.key);
      AppendIndex(front, last, key, |front|);
      assert es == front + [last];
    }
  }

  function PoolKeys(ops: seq<Op>, n: nat): set<string>
    requires n <= |ops|
  {
    set k | k in Named(ops, n) && LatestBase(ops, n, k).Some?
  }

  function CoolKeys(ops: seq<Op>, n: nat, now: int): set<string>
    requires n <= |ops|
  {
    set k | k in Named(ops, n) && CoolsAt(LatestCool(ops, n, k), now)
  }

  function DeadKeys(ops: seq<Op>, n: nat): set<string>
    requires n <= |ops|
  {
    set k | k in Named(ops, n) && DeadByHistory(ops, n, k)
  }

  /** The statistics count what the history leaves in the pool, cooling at the time asked, and dead. */
  lemma StatsFromHistory(ops: seq<Op>, n: nat, now: int)
    requires n <= |ops| && ClockWithin(ops, n, now)
    ensures var stats := StatsOf(RunTo(Empty, ops, n), now);
            stats.active == |PoolKeys(ops, n)| && stats.cooling == |CoolKeys(ops, n, now)| && stats.dead == |DeadKeys(ops, n)|
  {
    hide RunTo, LatestBase, LatestCool, DeadByHistory, Named, CoolsAt, IndexOf, KeySet;
    var st := RunTo(Empty, ops, n);
    KeysStayDistinct(ops, n);
    KeySetIs(st.active, "");
    forall k: string
      ensures k in KeySet(st.active) <==> k in Named(ops, n) && LatestBase(ops, n, k).Some?
      ensures k in Expire(st.cooling, now).Keys <==> k in Named(ops, n) && CoolsAt(LatestCool(ops, n, k), now)
      ensures k in st.dead <==> k in Named(ops, n) && DeadByHistory(ops, n, k)
    {
      KeySetIs(st.active, k);
      PoolFromHistory(ops, n, k);
      TablesMatchHistory(ops, n, k, "", now);
      OnlyNamed(ops, n, k, now);
    }
    assert KeySet(st.active) == PoolKeys(ops, n);
    assert Expire(st.cooling, now).Keys == CoolKeys(ops, n, now);
    assert st.dead == DeadKeys(ops, n);
  }

  // ---- what stays in the tables ----------------------------------------------------------------

  predicate Unexpired(m: map<string, int>, now: int) {
    forall k :: k in m ==> m[k] >= now
  }

  /** An acquire of any key, or of a named one, and a cleanup leave no expired entry behind; no other
      operation takes an entry out. */
  lemma OperationsSweep(st: State, op: Op)
    ensures op.Acquire? || op.Cleanup? || (op.TryAcquire? && TrimSpace(op.key) != "") ==>
              Unexpired(Step(st, op).cooling, op.now) && Unexpired(Step(st, op).modelCooling, op.now)
    ensures !op.Acquire? && !op.Cleanup? && !op.TryAcquire? ==>
              st.cooling.Keys <= Step(st, op).cooling.Keys && st.modelCooling.Keys <= Step(st, op).modelCooling.Keys
  {
    hide TrimSpace, AcquireIndex, TryGrants, PairField, WithCurrents, EligibleMask, IndexOf;
  }
}
