/** Whole runs of the scheduler: arbitrary sequences of operations, and what every one of them keeps. */
module SchedulerRuns {
  import opened Optional
  import opened Text
  import opened Scheduling

  datatype Op =
    | AddKey(key: string, weight: real)
    | SetHealthMultiplier(key: string, multiplier: real)
    | Acquire(now: int, maxConcurrency: int, model: string)
    | TryAcquire(now: int, key: string, maxConcurrency: int, model: string)
    | Release(key: string)
    | MarkCooling(now: int, key: string, duration: int)
    | MarkModelCooling(now: int, key: string, model: string, duration: int)
    | MarkDead(key: string)
    | Reset
    | Cleanup(now: int)
    | GetStats(now: int)

  /** What the caller of an operation sees. */
  datatype Outcome = Done | Selected(index: int, key: string) | Granted(ok: bool) | Counts(stats: Stats)

  predicate Timed(op: Op) {
    op.Acquire? || op.TryAcquire? || op.MarkCooling? || op.MarkModelCooling? || op.Cleanup? || op.GetStats?
  }

  function Step(st: State, op: Op): State {
    match op
    case AddKey(k, w) => AddKeyTo(st, k, w)
    case SetHealthMultiplier(k, m) => SetMultiplierIn(st, k, m)
    case Acquire(now, limit, model) => AcquireIn(st, now, limit, model)
    case TryAcquire(now, k, limit, model) => TryAcquireIn(st, now, k, limit, model)
    case Release(k) => ReleaseIn(st, k)
    case MarkCooling(now, k, d) => CoolIn(st, now, k, d)
    case MarkModelCooling(now, k, model, d) => CoolPairIn(st, now, k, model, d)
    case MarkDead(k) => MarkDeadIn(st, k)
    case Reset => ResetIn(st)
    case Cleanup(now) => Sweep(st, now)
    case GetStats(now) => st
  }

  function OutcomeOf(st: State, op: Op): Outcome {
    match op
    case Acquire(now, limit, model) =>
      Selected(AcquireIndex(st, now, limit, model), AcquireResult(st, now, limit, model))
    case TryAcquire(now, k, limit, model) => Granted(TryGrants(st, now, k, limit, model))
    case GetStats(now) => Counts(StatsOf(st, now))
    case _ => Done
  }

  const Empty := State([], map[], map[], {}, map[])

  /** The state after the first n operations. */
  function RunTo(st: State, ops: seq<Op>, n: nat): State
    requires n <= |ops|
  {
    if n == 0 then st else Step(RunTo(st, ops, n - 1), ops[n - 1])
  }

  function OutcomeAt(st: State, ops: seq<Op>, i: nat): Outcome
    requires i < |ops|
  {
    OutcomeOf(RunTo(st, ops, i), ops[i])
  }

  /** The clock never runs backwards. */
  ghost predicate Monotone(ops: seq<Op>) {
    forall i, j :: 0 <= i < j < |ops| && Timed(ops[i]) && Timed(ops[j]) ==> ops[i].now <= ops[j].now
  }

  // ---- leases --------------------------------------------------------------------------------

  /** The key an operation takes a lease on. */
  function LeaseOf(st: State, op: Op): Option<string> {
    match op
    case Acquire(now, limit, model) =>
      var i := AcquireIndex(st, now, limit, model);
      if i < 0 then None else Some(st.active[i].key)
    case TryAcquire(now, k, limit, model) =>
      if TryGrants(st, now, k, limit, model) then Some(TrimSpace(k)) else None
    case _ => None
  }

  /** Leases on key taken and not yet given back. A release of the empty key is no release. */
  function Outstanding(st: State, ops: seq<Op>, n: nat, key: string): int
    requires n <= |ops|
  {
    if n == 0 then 0
    else
      var before := Outstanding(st, ops, n - 1, key);
      var op := ops[n - 1];
      if LeaseOf(RunTo(st, ops, n - 1), op) == Some(key) then before + 1
      else if op == Release(key) && key != "" then before - 1
      else before
  }

  /** Every release gives back a lease that is out. */
  ghost predicate Matched(st: State, ops: seq<Op>) {
    forall i, k :: 0 <= i < |ops| && ops[i] == Release(k) && k != "" ==> Outstanding(st, ops, i, k) > 0
  }

  /** How often the key's counter was wiped: each Reset, each MarkDead of that key. */
  function Wipes(ops: seq<Op>, n: nat, key: string): nat
    requires n <= |ops|
  {
    if n == 0 then 0
    else Wipes(ops, n - 1, key) + if ops[n - 1].Reset? || ops[n - 1] == MarkDead(key) then 1 else 0
  }

  ghost predicate LimitsWithin(ops: seq<Op>, M: int) {
    && M >= 1
    && forall i :: 0 <= i < |ops| && (ops[i].Acquire? || ops[i].TryAcquire?) ==> ops[i].maxConcurrency <= M
  }

  /** A lease is only granted below the limit. */
  lemma LeaseBelowLimit(st: State, op: Op, M: int)
    requires LeaseOf(st, op).Some?
    requires M >= 1 && op.maxConcurrency <= M
    ensures CountOf(st.concurrency, LeaseOf(st, op).value) < M
  {}

  /** One operation seen from one key's counter. */
  lemma CounterStep(st: State, op: Op, key: string)
    ensures var before, after := CountOf(st.concurrency, key), CountOf(Step(st, op).concurrency, key);
            after == if LeaseOf(st, op) == Some(key) then before + 1
                     else if op == Release(key) && key != "" && before > 0 then before - 1
                     else if op.Reset? || op == MarkDead(key) then 0
                     else before
  {
    hide AcquireIndex, Admits, TrimSpace, Expire, IndexOf, WithCurrents, EligibleMask;
  }

  function Budget(M: int, wipes: nat): int {
    M * wipes
  }

  lemma BudgetStep(M: int, wipes: nat)
    ensures Budget(M, wipes + 1) == Budget(M, wipes) + M
    ensures Budget(M, 0) == 0
  {}

  /** Lease accounting over every run with matched releases: a counter stays in 0..M, never exceeds
      the leases really out, those never exceed M*(R+1), and without a wipe the two are equal. */
  lemma {:induction false} LeaseAccounting(ops: seq<Op>, n: nat, key: string, M: int)
    requires n <= |ops| && Matched(Empty, ops) && LimitsWithin(ops, M)
    ensures var counter := CountOf(RunTo(Empty, ops, n).concurrency, key);
            var out := Outstanding(Empty, ops, n, key);
            var wipes := Wipes(ops, n, key);
            && 0 <= counter <= M
            && counter <= out <= counter + Budget(M, wipes)
            && out <= Budget(M, wipes + 1)
            && (wipes == 0 ==> counter == out)
  {
    hide Step, LeaseOf, Budget;
    BudgetStep(M, Wipes(ops, n, key));
    if n > 0 {
      LeaseAccounting(ops, n - 1, key, M);
      var st, op := RunTo(Empty, ops, n - 1), ops[n - 1];
      CounterStep(st, op, key);
      BudgetStep(M, Wipes(ops, n - 1, key));
      if LeaseOf(st, op) == Some(key) {
        LeaseIsAcquire(st, op);
        LeaseBelowLimit(st, op, M);
      }
    }
  }

  lemma LeaseIsAcquire(st: State, op: Op)
    requires LeaseOf(st, op).Some?
    ensures op.Acquire? || op.TryAcquire?
  {}

  // ---- cooling and death ---------------------------------------------------------------------

  /** The latest cool-until ever written for a key. */
  function LatestCool(ops: seq<Op>, n: nat, key: string): Option<int>
    requires n <= |ops|
  {
    if n == 0 then None
    else if ops[n - 1].MarkCooling? && ops[n - 1].key == key then Some(ops[n - 1].now + ops[n - 1].duration)
    else LatestCool(ops, n - 1, key)
  }

  /** The latest cool-until ever written for a (key, model) field. */
  function LatestPairCool(ops: seq<Op>, n: nat, field: string): Option<int>
    requires n <= |ops|
  {
    if n == 0 then None
    else
      var op := ops[n - 1];
      if op.MarkModelCooling? && !IsBlank(op.key) && !IsBlank(op.model) && PairField(op.key, op.model) == field
      then Some(op.now + op.duration)
      else LatestPairCool(ops, n - 1, field)
  }

  /** Marked dead since the last reset. */
  predicate DeadByHistory(ops: seq<Op>, n: nat, key: string)
    requires n <= |ops|
  {
    n > 0 && !ops[n - 1].Reset? && (ops[n - 1] == MarkDead(key) || DeadByHistory(ops, n - 1, key))
  }

  predicate CoolsAt(until: Option<int>, now: int) {
    until.Some? && until.value >= now
  }

  /** The clock of operations 0..n has not passed now. */
  ghost predicate ClockWithin(ops: seq<Op>, n: nat, now: int)
    requires n <= |ops|
  {
    forall i :: 0 <= i < n && Timed(ops[i]) ==> ops[i].now <= now
  }

  lemma DeadStep(st: State, op: Op, key: string)
    ensures key in Step(st, op).dead <==> !op.Reset? && (op == MarkDead(key) || key in st.dead)
  {
    hide AcquireIndex, TryGrants, TrimSpace, IndexOf, WithCurrents, EligibleMask, Expire;
  }

  lemma CoolStep(st: State, op: Op, key: string, now: int)
    requires Timed(op) ==> op.now <= now
    ensures Blocks(Step(st, op).cooling, key, now)
        <==> if op.MarkCooling? && op.key == key then op.now + op.duration >= now else Blocks(st.cooling, key, now)
  {
    hide AcquireIndex, TryGrants, TrimSpace, IndexOf, WithCurrents, EligibleMask;
  }

  lemma PairCoolStep(st: State, op: Op, field: string, now: int)
    requires Timed(op) ==> op.now <= now
    ensures var marks := op.MarkModelCooling? && !IsBlank(op.key) && !IsBlank(op.model) && PairField(op.key, op.model) == field;
            var blocked := if marks then op.now + op.duration >= now else Blocks(st.modelCooling, field, now);
            Blocks(Step(st, op).modelCooling, field, now) == blocked
  {
    hide TrimSpace, PairField, AcquireIndex, TryGrants, WithCurrents, IndexOf;
    if !op.MarkModelCooling? && Timed(op) {
      assert Step(st, op).modelCooling == st.modelCooling || Step(st, op).modelCooling == Sweep(st, op.now).modelCooling;
    }
  }

  /** The tables say exactly what the history says, although expired entries are dropped along the
      way and cooling outlives Reset. */
  lemma {:induction false} TablesMatchHistory(ops: seq<Op>, n: nat, key: string, field: string, now: int)
    requires n <= |ops| && ClockWithin(ops, n, now)
    ensures var st := RunTo(Empty, ops, n);
            && (key in st.dead <==> DeadByHistory(ops, n, key))
            && (Blocks(st.cooling, key, now) <==> CoolsAt(LatestCool(ops, n, key), now))
            && (Blocks(st.modelCooling, field, now) <==> CoolsAt(LatestPairCool(ops, n, field), now))
  {
    hide Step;
    if n > 0 {
      TablesMatchHistory(ops, n - 1, key, field, now);
      var st := RunTo(Empty, ops, n - 1);
      DeadStep(st, ops[n - 1], key);
      CoolStep(st, ops[n - 1], key, now);
      PairCoolStep(st, ops[n - 1], field, now);
    }
  }

  /** In any run a key may be handed out exactly when its history allows it. */
  lemma AdmissionFromHistory(ops: seq<Op>, n: nat, key: string, now: int, limit: int, model: string)
    requires n <= |ops| && ClockWithin(ops, n, now)
    ensures Admits(RunTo(Empty, ops, n), key, now, limit, model) <==>
      && !DeadByHistory(ops, n, key)
      && !CoolsAt(LatestCool(ops, n, key), now)
      && (model != "" ==> !CoolsAt(LatestPairCool(ops, n, PairField(key, model)), now))
      && CountOf(RunTo(Empty, ops, n).concurrency, key) < limit
  {
    TablesMatchHistory(ops, n, key, PairField(key, model), now);
  }

  /** No acquire, in any run with a forward clock, returns a key outside the pool, a dead key, one still
      cooling, or one at its limit. */
  lemma AcquireIsSafe(ops: seq<Op>, i: nat)
    requires i < |ops| && Monotone(ops)
    requires LeaseOf(RunTo(Empty, ops, i), ops[i]).Some?
    ensures var key := LeaseOf(RunTo(Empty, ops, i), ops[i]).value;
            var now, model := ops[i].now, TrimSpace(ops[i].model);
            && LatestBase(ops, i, key).Some?
            && !DeadByHistory(ops, i, key)
            && !CoolsAt(LatestCool(ops, i, key), now)
            && (model != "" ==> !CoolsAt(LatestPairCool(ops, i, PairField(key, model)), now))
            && CountOf(RunTo(Empty, ops, i).concurrency, key)
                 < (if ops[i].Acquire? then ops[i].maxConcurrency else AtLeastOne(ops[i].maxConcurrency))
  {
    var st, op := RunTo(Empty, ops, i), ops[i];
    var key := LeaseOf(st, op).value;
    LeaseIsAdmitted(st, op);
    LeaseInPool(st, op);
    hide RunTo, LatestBase, LatestMultiplier, IndexOf, Effective;
    WeightFromHistory(ops, i, key);
    AdmissionFromHistory(ops, i, key, op.now, if op.Acquire? then op.maxConcurrency else AtLeastOne(op.maxConcurrency), TrimSpace(op.model));
  }

  lemma LeaseIsAdmitted(st: State, op: Op)
    requires LeaseOf(st, op).Some?
    ensures op.Acquire? || op.TryAcquire?
    ensures var limit := if op.Acquire? then op.maxConcurrency else AtLeastOne(op.maxConcurrency);
            Admits(st, LeaseOf(st, op).value, op.now, limit, TrimSpace(op.model))
  {}

  lemma LeaseInPool(st: State, op: Op)
    requires LeaseOf(st, op).Some?
    ensures IndexOf(st.active, LeaseOf(st, op).value) < |st.active|
  {
    hide IndexTo, TrimSpace, Admits, AcquireIndex;
    if op.Acquire? {
      assert st.active[AcquireIndex(st, op.now, op.maxConcurrency, op.model)].key == LeaseOf(st, op).value;
    }
  }

  // ---- (key, model) cooling ------------------------------------------------------------------

  predicate NoBar(s: string) {
    '|' !in s
  }

  /** The longer key goes on, after a bar, with what the shorter key's model starts with. */
  ghost predicate Extends(k1: string, m1: string, k2: string, m2: string)
    ensures Extends(k1, m1, k2, m2) <==> exists b :: k2 == k1 + "|" + b && m1 == b + "|" + m2
  {
    ExtendsMeans(k1, m1, k2, m2);
    k1 + "|" <= k2 && m1 == k2[|k1| + 1..] + "|" + m2
  }

  lemma ExtendsMeans(k1: string, m1: string, k2: string, m2: string)
    ensures k1 + "|" <= k2 && m1 == k2[|k1| + 1..] + "|" + m2 <==> exists b :: k2 == k1 + "|" + b && m1 == b + "|" + m2
  {
    if k1 + "|" <= k2 {
      assert k2 == k1 + "|" + k2[|k1| + 1..];
    }
    forall b | k2 == k1 + "|" + b ensures k1 + "|" <= k2 && k2[|k1| + 1..] == b {}
  }

  /** The two pairs are written to one field. */
  ghost predicate Aliases(k1: string, m1: string, k2: string, m2: string) {
    (k1 == k2 && m1 == m2) || Extends(k1, m1, k2, m2) || Extends(k2, m2, k1, m1)
  }

  lemma ShorterKeyFirst(k1: string, m1: string, k2: string, m2: string)
    requires PairField(k1, m1) == PairField(k2, m2) && |k1| < |k2|
    ensures Extends(k1, m1, k2, m2)
  {
    var f := PairField(k1, m1);
    assert f[..|k1| + 1] == k1 + "|";
    assert f[..|k2|] == k2;
    assert f[..|k2|][..|k1| + 1] == f[..|k1| + 1];
    assert m1 == f[|k1| + 1..];
    assert f[|k1| + 1..] == k2[|k1| + 1..] + "|" + m2;
  }

  lemma ExtensionCollides(k1: string, m1: string, k2: string, m2: string)
    requires Extends(k1, m1, k2, m2)
    ensures PairField(k1, m1) == PairField(k2, m2)
  {
    var b := k2[|k1| + 1..];
    assert k2 == k1 + "|" + b;
    assert k1 + "|" + (b + "|" + m2) == k1 + "|" + b + "|" + m2;
  }

  /** When two pairs share a field: they are one pair, or one key extends the other, after a bar, by
      what the other's model starts with. */
  lemma SameFieldIffAliases(k1: string, m1: string, k2: string, m2: string)
    ensures PairField(k1, m1) == PairField(k2, m2) <==> Aliases(k1, m1, k2, m2)
  {
    if PairField(k1, m1) == PairField(k2, m2) {
      if |k1| < |k2| {
        ShorterKeyFirst(k1, m1, k2, m2);
      } else if |k2| < |k1| {
        ShorterKeyFirst(k2, m2, k1, m1);
      } else {
        SameLengthSamePair(k1, m1, k2, m2);
      }
    } else {
      if Extends(k1, m1, k2, m2) { ExtensionCollides(k1, m1, k2, m2); }
      if Extends(k2, m2, k1, m1) { ExtensionCollides(k2, m2, k1, m1); }
    }
  }

  lemma SameLengthSamePair(k1: string, m1: string, k2: string, m2: string)
    requires PairField(k1, m1) == PairField(k2, m2) && |k1| == |k2|
    ensures k1 == k2 && m1 == m2
  {
    var f := PairField(k1, m1);
    assert f[..|k1|] == k1 && f[..|k2|] == k2;
    assert f[|k1| + 1..] == m1 && f[|k2| + 1..] == m2;
  }

  /** When a mark on one pair leaves an admission of another, or of the same one, as it was: the mark is
      ignored, or the pairs do not alias, or the field already said the same, or the pair is not what
      decides: the model is empty, or the key is refused for another reason. */
  lemma MarkLeavesAdmission(st: State, now: int, k1: string, m1: string, d: int, t: int, limit: int, k2: string, m2: string)
    ensures Admits(CoolPairIn(st, now, k1, m1, d), k2, t, limit, m2) == Admits(st, k2, t, limit, m2) <==>
      || IsBlank(k1) || IsBlank(m1) || !Aliases(k1, m1, k2, m2)
      || Blocks(st.modelCooling, PairField(k2, m2), t) == (now + d >= t)
      || m2 == "" || k2 in st.dead || Blocks(st.cooling, k2, t) || CountOf(st.concurrency, k2) >= limit
  {
    SameFieldIffAliases(k1, m1, k2, m2);
    hide IsBlank, Aliases, PairField;
  }

  /** So cooling one (key, model) pair never blocks another for keys without '|'. */
  lemma PairsAreIndependent(st: State, now: int, k1: string, m1: string, d: int, t: int, limit: int, k2: string, m2: string)
    requires NoBar(k1) && NoBar(k2) && (k1, m1) != (k2, m2)
    ensures Admits(CoolPairIn(st, now, k1, m1, d), k2, t, limit, m2) <==> Admits(st, k2, t, limit, m2)
  {
    NoBarNoExtension(k1, m1, k2, m2);
    NoBarNoExtension(k2, m2, k1, m1);
    hide Admits, CoolPairIn, Extends, IsBlank;
    MarkLeavesAdmission(st, now, k1, m1, d, t, limit, k2, m2);
  }

  lemma NoBarNoExtension(k1: string, m1: string, k2: string, m2: string)
    requires NoBar(k2)
    ensures !Extends(k1, m1, k2, m2)
  {
    BarInside(k1, k2);
  }

  lemma BarInside(k1: string, k2: string)
    ensures k1 + "|" <= k2 ==> '|' in k2
  {
    if k1 + "|" <= k2 {
      assert k2[|k1|] == '|';
    }
  }

  /** And with a '|' in the key a pending mark on one pair blocks a different pair. */
  lemma BarInKeyCollides(st: State, now: int, a: string, b: string, m: string, d: int, t: int, limit: int)
    requires !IsBlank(a) && !IsBlank(b + "|" + m) && m != "" && now + d >= t
    ensures !Admits(CoolPairIn(st, now, a, b + "|" + m, d), a + "|" + b, t, limit, m)
    ensures (a, b + "|" + m) != (a + "|" + b, m)
  {
    hide IsBlank;
    SameFieldIffAliases(a, b + "|" + m, a + "|" + b, m);
    assert |a + "|" + b| > |a|;
  }

  /** MarkModelCooling stores the model as given while the acquire paths look it up trimmed: a
      pending mark takes effect exactly when the model was already trimmed. */
  lemma PairMarkTakesEffect(st: State, now: int, key: string, model: string, d: int, t: int)
    requires !IsBlank(key) && !IsBlank(model) && now + d >= t
    ensures var looked := PairField(key, TrimSpace(model));
            var before, after := st.modelCooling, CoolPairIn(st, now, key, model, d).modelCooling;
            Blocks(after, looked, t) <==> IsTrimmed(model) || Blocks(before, looked, t)
  {
    if PairField(key, TrimSpace(model)) == PairField(key, model) {
      assert PairField(key, TrimSpace(model))[|key| + 1..] == TrimSpace(model);
      assert PairField(key, model)[|key| + 1..] == model;
    }
  }

  // ---- cleanup is invisible ------------------------------------------------------------------

  /** The same state but for cooling entries that have expired by t. */
  ghost predicate SameFrom(a: State, b: State, t: int) {
    && a.active == b.active && a.dead == b.dead && a.concurrency == b.concurrency
    && Expire(a.cooling, t) == Expire(b.cooling, t)
    && Expire(a.modelCooling, t) == Expire(b.modelCooling, t)
  }

  lemma ExpireTwice(m: map<string, int>, t: int, u: int)
    requires t <= u
    ensures Expire(Expire(m, t), u) == Expire(m, u)
    ensures Expire(Expire(m, u), t) == Expire(m, u)
  {}

  lemma SameLater(a: State, b: State, t: int, u: int)
    requires SameFrom(a, b, t) && t <= u
    ensures SameFrom(a, b, u)
  {
    ExpireTwice(a.cooling, t, u);
    ExpireTwice(b.cooling, t, u);
    ExpireTwice(a.modelCooling, t, u);
    ExpireTwice(b.modelCooling, t, u);
  }

  lemma SameBlocks(m: map<string, int>, n: map<string, int>, t: int, k: string)
    requires Expire(m, t) == Expire(n, t)
    ensures Blocks(m, k, t) == Blocks(n, k, t)
  {
    assert k in Expire(m, t) <==> Blocks(m, k, t);
    assert k in Expire(n, t) <==> Blocks(n, k, t);
  }

  lemma SameAdmission(a: State, b: State, t: int, key: string, limit: int, model: string)
    requires SameFrom(a, b, t)
    ensures Admits(a, key, t, limit, model) == Admits(b, key, t, limit, model)
  {
    SameBlocks(a.cooling, b.cooling, t, key);
    SameBlocks(a.modelCooling, b.modelCooling, t, PairField(key, model));
  }

  lemma SameMask(a: State, b: State, t: int, limit: int, model: string)
    requires SameFrom(a, b, t)
    ensures EligibleMask(a, t, limit, model) == EligibleMask(b, t, limit, model)
  {
    forall i | 0 <= i < |a.active|
      ensures EligibleMask(a, t, limit, model)[i] == EligibleMask(b, t, limit, model)[i]
    {
      SameAdmission(a, b, t, a.active[i].key, limit, model);
    }
  }

  lemma ExpireWrite(m: map<string, int>, n: map<string, int>, t: int, k: string, v: int)
    requires Expire(m, t) == Expire(n, t)
    ensures Expire(m[k := v], t) == Expire(n[k := v], t)
  {
    var a, b := Expire(m[k := v], t), Expire(n[k := v], t);
    forall f ensures f in a <==> f in b {
      SameBlocks(m, n, t, f);
    }
    forall f | f in a ensures a[f] == b[f] {
      if f != k { assert Expire(m, t)[f] == Expire(n, t)[f]; }
    }
  }

  /** One operation at or after t cannot tell the two states apart. */
  lemma SameStepUntimed(a: State, b: State, t: int, op: Op)
    requires SameFrom(a, b, t) && !Timed(op)
    ensures OutcomeOf(a, op) == OutcomeOf(b, op) && SameFrom(Step(a, op), Step(b, op), t)
  {
    hide IndexOf, Effective, TrimSpace, ClampHealthMultiplier, Expire, AcquireIndex, AcquireIn, TryGrants, TryAcquireIn, Sweep, CoolPairIn;
  }

  lemma SameAcquire(a: State, b: State, t: int, limit: int, model: string)
    requires SameFrom(a, b, t)
    ensures AcquireIndex(a, t, limit, model) == AcquireIndex(b, t, limit, model)
    ensures AcquireResult(a, t, limit, model) == AcquireResult(b, t, limit, model)
    ensures SameFrom(AcquireIn(a, t, limit, model), AcquireIn(b, t, limit, model), t)
  {
    SameMask(a, b, t, limit, TrimSpace(model));
    hide TrimSpace, EligibleMask, WithCurrents;
  }

  lemma SameTryAcquire(a: State, b: State, t: int, key: string, limit: int, model: string)
    requires SameFrom(a, b, t)
    ensures TryGrants(a, t, key, limit, model) == TryGrants(b, t, key, limit, model)
    ensures SameFrom(TryAcquireIn(a, t, key, limit, model), TryAcquireIn(b, t, key, limit, model), t)
  {
    SameAdmission(a, b, t, TrimSpace(key), AtLeastOne(limit), TrimSpace(model));
    hide TrimSpace, Admits, IndexOf;
  }

  lemma SameCoolPair(a: State, b: State, t: int, key: string, model: string, d: int)
    requires SameFrom(a, b, t)
    ensures SameFrom(CoolPairIn(a, t, key, model, d), CoolPairIn(b, t, key, model, d), t)
  {
    hide TrimSpace, PairField;
    ExpireWrite(a.modelCooling, b.modelCooling, t, PairField(key, model), t + d);
  }

  lemma SameStepTimed(a: State, b: State, op: Op)
    requires Timed(op) && SameFrom(a, b, op.now)
    ensures OutcomeOf(a, op) == OutcomeOf(b, op) && SameFrom(Step(a, op), Step(b, op), op.now)
  {
    hide AcquireIn, AcquireIndex, AcquireResult, TryGrants, TryAcquireIn, CoolPairIn;
    var t := op.now;
    match op
    case Acquire(_, limit, model) => SameAcquire(a, b, t, limit, model);
    case TryAcquire(_, key, limit, model) => SameTryAcquire(a, b, t, key, limit, model);
    case MarkCooling(_, key, d) => ExpireWrite(a.cooling, b.cooling, t, key, t + d);
    case MarkModelCooling(_, key, model, d) => SameCoolPair(a, b, t, key, model, d);
    case Cleanup(_) =>
    case GetStats(_) =>
  }

  lemma {:induction false} SameRuns(a: State, b: State, t: int, ops: seq<Op>, n: nat) returns (u: int)
    requires n <= |ops| && Monotone(ops) && SameFrom(a, b, t)
    requires forall i :: 0 <= i < |ops| && Timed(ops[i]) ==> t <= ops[i].now
    ensures SameFrom(RunTo(a, ops, n), RunTo(b, ops, n), u) && t <= u
    ensures forall i :: n <= i < |ops| && Timed(ops[i]) ==> u <= ops[i].now
    ensures n < |ops| ==> OutcomeAt(a, ops, n) == OutcomeAt(b, ops, n)
  {
    hide Step, OutcomeOf, SameFrom;
    u := t;
    if n > 0 {
      u := SameRuns(a, b, t, ops, n - 1);
      u := SameNext(RunTo(a, ops, n - 1), RunTo(b, ops, n - 1), u, ops[n - 1]);
    }
    if n < |ops| {
      var _ := SameNext(RunTo(a, ops, n), RunTo(b, ops, n), u, ops[n]);
    }
  }

  lemma SameNext(a: State, b: State, t: int, op: Op) returns (u: int)
    requires SameFrom(a, b, t) && (Timed(op) ==> t <= op.now)
    ensures u == if Timed(op) then op.now else t
    ensures OutcomeOf(a, op) == OutcomeOf(b, op) && SameFrom(Step(a, op), Step(b, op), u)
  {
    hide Step, OutcomeOf, SameFrom;
    u := t;
    if Timed(op) {
      u := op.now;
      SameLater(a, b, t, u);
      SameStepTimed(a, b, op);
    } else {
      SameStepUntimed(a, b, t, op);
    }
  }

  lemma {:induction false} RunConcat(st: State, a: seq<Op>, b: seq<Op>, n: nat)
    requires n <= |b|
    ensures RunTo(st, a + b, |a| + n) == RunTo(RunTo(st, a, |a|), b, n)
  {
    hide Step;
    if n > 0 {
      RunConcat(st, a, b, n - 1);
    } else {
      RunPrefix(st, a, b, |a|);
    }
  }

  lemma {:induction false} RunPrefix(st: State, a: seq<Op>, b: seq<Op>, n: nat)
    requires n <= |a|
    ensures RunTo(st, a + b, n) == RunTo(st, a, n)
  {
    hide Step;
    if n > 0 {
      RunPrefix(st, a, b, n - 1);
    }
  }

  lemma CleanupFitsClock(a: seq<Op>, now: int, b: seq<Op>)
    requires Monotone(a + [Cleanup(now)] + b)
    ensures Monotone(b) && forall j :: 0 <= j < |b| && Timed(b[j]) ==> now <= b[j].now
  {
    var ops := a + [Cleanup(now)] + b;
    assert ops[|a|] == Cleanup(now);
    assert forall j :: 0 <= j < |b| ==> ops[|a| + 1 + j] == b[j];
    forall j | 0 <= j < |b| && Timed(b[j]) ensures now <= b[j].now {
      assert ops[|a|].now <= ops[|a| + 1 + j].now;
    }
    forall j, k | 0 <= j < k < |b| && Timed(b[j]) && Timed(b[k]) ensures b[j].now <= b[k].now {
      assert ops[|a| + 1 + j].now <= ops[|a| + 1 + k].now;
    }
  }

  lemma SweepIsSame(st: State, now: int)
    ensures SameFrom(Sweep(st, now), st, now)
  {}

  lemma OneCleanup(st: State, now: int)
    ensures RunTo(st, [Cleanup(now)], 1) == Sweep(st, now)
  {
    assert RunTo(st, [Cleanup(now)], 0) == st;
    assert RunTo(st, [Cleanup(now)], 1) == Step(RunTo(st, [Cleanup(now)], 0), Cleanup(now));
  }

  lemma OutcomeConcat(st: State, a: seq<Op>, b: seq<Op>, i: nat)
    requires i < |b|
    ensures OutcomeAt(st, a + b, |a| + i) == OutcomeAt(RunTo(st, a, |a|), b, i)
  {
    RunConcat(st, a, b, i);
  }

  /** Inserting CleanupExpired anywhere in a run with a forward clock changes no later outcome. */
  lemma CleanupIsInvisible(st: State, a: seq<Op>, now: int, b: seq<Op>, i: nat)
    requires i < |b| && Monotone(a + [Cleanup(now)] + b)
    ensures OutcomeAt(st, a + [Cleanup(now)] + b, |a| + 1 + i) == OutcomeAt(st, a + b, |a| + i)
  {
    hide *;
    CleanupFitsClock(a, now, b);
    var c := a + [Cleanup(now)];
    assert |c| == |a| + 1;
    var mid := RunTo(st, a, |a|);
    SweepIsSame(mid, now);
    var _ := SameRuns(Sweep(mid, now), mid, now, b, i);
    OutcomeConcat(st, a, b, i);
    OutcomeConcat(st, c, b, i);
    RunConcat(st, a, [Cleanup(now)], 1);
    OneCleanup(mid, now);
  }

  // ---- weights -------------------------------------------------------------------------------

  /** What an operation does to the configured base weight of a key. */
  function NextBase(op: Op, key: string, base: Option<real>): Option<real> {
    if op.Reset? then None
    else if op.AddKey? && op.key == key then Some(op.weight)
    else base
  }

  /** What an operation does to the health multiplier of a key: writes reach keys in the pool only,
      and a key joins the pool with multiplier 1. */
  function NextMultiplier(op: Op, key: string, base: Option<real>, multiplier: real): real {
    if op.Reset? || base.None? then 1.0
    else if op.SetHealthMultiplier? && TrimSpace(op.key) == key && key != ""
    then (if op.multiplier < 0.5 then 0.5 else if op.multiplier > 2.0 then 2.0 else op.multiplier)
    else multiplier
  }

  /** The base weight last configured since the latest reset. */
  function LatestBase(ops: seq<Op>, n: nat, key: string): Option<real>
    requires n <= |ops|
  {
    if n == 0 then None else NextBase(ops[n - 1], key, LatestBase(ops, n - 1, key))
  }

  /** The multiplier last written since the key joined the pool, 1 if none was. */
  function LatestMultiplier(ops: seq<Op>, n: nat, key: string): real
    requires n <= |ops|
  {
    if n == 0 then 1.0
    else NextMultiplier(ops[n - 1], key, LatestBase(ops, n - 1, key), LatestMultiplier(ops, n - 1, key))
  }

  /** The entry of a key: present exactly when configured, with weight = base x multiplier. */
  ghost predicate EntryIs(es: seq<KeyEntry>, key: string, base: Option<real>, multiplier: real) {
    var i := IndexOf(es, key);
    && (i < |es| <==> base.Some?)
    && (i < |es| ==>
          && es[i].baseWeight == base.value && es[i].healthMult == multiplier
          && es[i].weight == base.value * multiplier)
    && (base.None? ==> multiplier == 1.0)
  }

  lemma {:induction false} SameKeysSameIndex(es: seq<KeyEntry>, fs: seq<KeyEntry>, key: string, n: nat)
    requires |es| == |fs| && n <= |es| && forall i :: 0 <= i < |es| ==> es[i].key == fs[i].key
    ensures IndexTo(es, key, n) == IndexTo(fs, key, n)
  {
    if n > 0 {
      SameKeysSameIndex(es, fs, key, n - 1);
    }
  }

  lemma {:induction false} AppendIndex(es: seq<KeyEntry>, e: KeyEntry, key: string, n: nat)
    requires n <= |es|
    ensures IndexTo(es + [e], key, n) == IndexTo(es, key, n)
  {
    if n > 0 {
      AppendIndex(es, e, key, n - 1);
    }
  }

  predicate SameButCurrent(e: KeyEntry, f: KeyEntry) {
    e.key == f.key && e.baseWeight == f.baseWeight && e.healthMult == f.healthMult && e.weight == f.weight
  }

  /** AcquireKey and MarkDead touch current weights only. */
  lemma RotationKeepsEntries(st: State, op: Op)
    requires !op.AddKey? && !op.SetHealthMultiplier? && !op.Reset?
    ensures |Step(st, op).active| == |st.active|
    ensures forall i :: 0 <= i < |st.active| ==> SameButCurrent(Step(st, op).active[i], st.active[i])
  {
    hide AcquireIndex, EligibleMask, TryGrants, TrimSpace;
  }

  lemma RotationKeepsEntry(st: State, op: Op, key: string, base: Option<real>, multiplier: real)
    requires !op.AddKey? && !op.SetHealthMultiplier? && !op.Reset?
    requires EntryIs(st.active, key, base, multiplier)
    ensures EntryIs(Step(st, op).active, key, base, multiplier)
  {
    RotationKeepsEntries(st, op);
    hide Step, IndexTo;
    SameKeysSameIndex(st.active, Step(st, op).active, key, |st.active|);
  }

  lemma AddKeepsEntry(st: State, k: string, w: real, key: string, base: Option<real>, multiplier: real)
    requires EntryIs(st.active, key, base, multiplier)
    ensures EntryIs(AddKeyTo(st, k, w).active, key, if k == key then Some(w) else base, multiplier)
  {
    var i := IndexOf(st.active, k);
    var after := AddKeyTo(st, k, w).active;
    if i < |st.active| {
      hide IndexTo;
      SameKeysSameIndex(st.active, after, key, |st.active|);
    } else {
      AppendIndex(st.active, KeyEntry(k, w, 1.0, w, 0.0), key, |st.active|);
      assert Effective(w, 1.0) == w;
    }
  }

  lemma EffectiveIs(base: real, multiplier: real)
    ensures Effective(base, multiplier) == base * multiplier
  {}

  lemma MultiplierKeepsEntry(st: State, k: string, m: real, key: string, base: Option<real>, multiplier: real)
    requires EntryIs(st.active, key, base, multiplier)
    ensures var hit := base.Some? && TrimSpace(k) == key && key != "";
            EntryIs(SetMultiplierIn(st, k, m).active, key, base, if hit then ClampHealthMultiplier(m) else multiplier)
  {
    hide IndexTo, Effective, TrimSpace;
    forall base: real ensures Effective(base, ClampHealthMultiplier(m)) == base * ClampHealthMultiplier(m) {
      EffectiveIs(base, ClampHealthMultiplier(m));
    }
    var after := SetMultiplierIn(st, k, m).active;
    SameKeysSameIndex(st.active, after, key, |st.active|);
  }

  lemma StepIs(st: State, op: Op)
    ensures op.AddKey? ==> Step(st, op) == AddKeyTo(st, op.key, op.weight)
    ensures op.SetHealthMultiplier? ==> Step(st, op) == SetMultiplierIn(st, op.key, op.multiplier)
    ensures op.Reset? ==> Step(st, op).active == []
    ensures op.MarkDead? ==> Step(st, op) == MarkDeadIn(st, op.key)
    ensures op.Acquire? ==> Step(st, op) == AcquireIn(st, op.now, op.maxConcurrency, op.model)
    ensures !op.AddKey? && !op.SetHealthMultiplier? && !op.Reset? && !op.MarkDead? && !op.Acquire? ==>
              Step(st, op).active == st.active
  {
    hide AddKeyTo, SetMultiplierIn, MarkDeadIn, AcquireIn, TryAcquireIn, CoolPairIn, ReleaseIn, Sweep;
    KeepsPool(st, op);
  }

  lemma KeepsPool(st: State, op: Op)
    ensures op.TryAcquire? ==> TryAcquireIn(st, op.now, op.key, op.maxConcurrency, op.model).active == st.active
    ensures op.MarkModelCooling? ==> CoolPairIn(st, op.now, op.key, op.model, op.duration).active == st.active
    ensures op.Release? ==> ReleaseIn(st, op.key).active == st.active
    ensures op.Cleanup? ==> Sweep(st, op.now).active == st.active
  {
    hide TrimSpace, TryGrants, IsBlank, Expire, PairField;
  }

  lemma NoEntryNoMultiplier(es: seq<KeyEntry>, key: string, base: Option<real>, multiplier: real)
    requires EntryIs(es, key, base, multiplier)
    ensures base.None? ==> multiplier == 1.0
    ensures es == [] ==> base.None?
  {}

  lemma EmptyPool(key: string)
    ensures EntryIs([], key, None, 1.0)
  {}

  lemma EntryStep(st: State, op: Op, key: string, base: Option<real>, multiplier: real)
    requires EntryIs(st.active, key, base, multiplier)
    ensures EntryIs(Step(st, op).active, key, NextBase(op, key, base), NextMultiplier(op, key, base, multiplier))
  {
    hide Step, EntryIs, AddKeyTo, SetMultiplierIn, MarkDeadIn, AcquireIn, TrimSpace;
    StepIs(st, op);
    NoEntryNoMultiplier(st.active, key, base, multiplier);
    EmptyPool(key);
    if op.AddKey? {
      AddKeepsEntry(st, op.key, op.weight, key, base, multiplier);
    } else if op.SetHealthMultiplier? {
      MultiplierKeepsEntry(st, op.key, op.multiplier, key, base, multiplier);
    } else if !op.Reset? {
      RotationKeepsEntry(st, op, key, base, multiplier);
    }
  }

  /** After any run a key's weight is its latest base times its latest multiplier: reloads and
      health updates never compound. */
  lemma {:induction false} WeightFromHistory(ops: seq<Op>, n: nat, key: string)
    requires n <= |ops|
    ensures EntryIs(RunTo(Empty, ops, n).active, key, LatestBase(ops, n, key), LatestMultiplier(ops, n, key))
  {
    hide Step, NextBase, NextMultiplier;
    if n > 0 {
      WeightFromHistory(ops, n - 1, key);
      EntryStep(RunTo(Empty, ops, n - 1), ops[n - 1], key, LatestBase(ops, n - 1, key), LatestMultiplier(ops, n - 1, key));
    }
  }
}
