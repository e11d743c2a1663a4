/** Many requests at once on one scheduler: each takes and returns leases as the retry loops do, their
    calls interleave in any order, and no counter is lost or left behind. */
module RequestLeases {
  import opened Optional
  import opened SchedulerRuns
  import S = Scheduling
  import U = Upstream
  import E = Executors

  // ---- whose call is whose ---------------------------------------------------------------------

  /** What a scheduler call adds to the ledger of the request that makes it. */
  function Entry(st: S.State, op: Op): seq<U.Lease> {
    if LeaseOf(st, op).Some? then [U.Acquired(LeaseOf(st, op).value)]
    else if op.Release? then [U.Released(op.key)]
    else []
  }

  /** The ledger of request r after the first n calls; owner says which request makes each call. */
  function LedgerTo(ops: seq<Op>, owner: seq<nat>, n: nat, r: nat): seq<U.Lease>
    requires n <= |ops| == |owner|
  {
    if n == 0 then []
    else
      var before := LedgerTo(ops, owner, n - 1, r);
      if owner[n - 1] == r then before + Entry(RunTo(Empty, ops, n - 1), ops[n - 1]) else before
  }

  /** R requests make all the calls, and each follows a retry loop to its end. */
  ghost predicate Serves(ops: seq<Op>, owner: seq<nat>, R: nat) {
    && |owner| == |ops|
    && (forall i :: 0 <= i < |ops| ==> owner[i] < R)
    && forall r: nat :: r < R ==> E.Paired(LedgerTo(ops, owner, |ops|, r))
  }

  /** The leases of a key that the first R requests have out. */
  function HeldBy(ops: seq<Op>, owner: seq<nat>, n: nat, key: string, R: nat): int
    requires n <= |ops| == |owner|
  {
    if R == 0 then 0
    else HeldBy(ops, owner, n, key, R - 1) + E.Outstanding(LedgerTo(ops, owner, n, R - 1), key)
  }

  // ---- the ledgers add up ----------------------------------------------------------------------

  /** What an operation adds to or takes from the leases of a key. */
  function Delta(st: S.State, op: Op, key: string): int {
    if LeaseOf(st, op) == Some(key) then 1 else if op == Release(key) then -1 else 0
  }

  lemma OneMore(l: seq<U.Lease>, e: U.Lease, key: string)
    ensures E.Outstanding(l + [e], key) == E.Outstanding(l, key) + E.Change(e, key)
  {
    E.LastOne(l + [e], key);
    assert (l + [e])[..|l|] == l;
  }

  lemma EntryChange(l: seq<U.Lease>, st: S.State, op: Op, key: string)
    ensures E.Outstanding(l + Entry(st, op), key) == E.Outstanding(l, key) + Delta(st, op, key)
  {
    hide LeaseOf, E.Outstanding;
    LeaseIsNoRelease(st, op);
    if LeaseOf(st, op).Some? {
      OneMore(l, U.Acquired(LeaseOf(st, op).value), key);
    } else if op.Release? {
      OneMore(l, U.Released(op.key), key);
    } else {
      assert l + [] == l;
    }
  }

  lemma LeaseIsNoRelease(st: S.State, op: Op)
    ensures op.Release? ==> LeaseOf(st, op).None?
  {}

  lemma {:induction false} HeldStep(ops: seq<Op>, owner: seq<nat>, n: nat, key: string, R: nat)
    requires n < |ops| == |owner|
    ensures HeldBy(ops, owner, n + 1, key, R)
         == HeldBy(ops, owner, n, key, R) + if owner[n] < R then Delta(RunTo(Empty, ops, n), ops[n], key) else 0
  {
    hide Delta, Entry, E.Outstanding, RunTo;
    if R > 0 {
      HeldStep(ops, owner, n, key, R - 1);
      var before := LedgerTo(ops, owner, n, R - 1);
      EntryChange(before, RunTo(Empty, ops, n), ops[n], key);
    }
  }

  lemma {:induction false} HeldAtFirst(ops: seq<Op>, owner: seq<nat>, key: string, R: nat)
    requires |ops| == |owner|
    ensures HeldBy(ops, owner, 0, key, R) == 0
  {
    if R > 0 {
      HeldAtFirst(ops, owner, key, R - 1);
    }
  }

  /** What is out is what the requests hold. */
  lemma {:induction false} OutIsHeld(ops: seq<Op>, owner: seq<nat>, n: nat, key: string, R: nat)
    requires n <= |ops| && Serves(ops, owner, R) && key != ""
    ensures Outstanding(Empty, ops, n, key) == HeldBy(ops, owner, n, key, R)
  {
    hide LeaseOf, RunTo, HeldBy, E.Paired, LedgerTo;
    if n == 0 {
      HeldAtFirst(ops, owner, key, R);
    } else {
      OutIsHeld(ops, owner, n - 1, key, R);
      HeldStep(ops, owner, n - 1, key, R);
      LeaseIsNoRelease(RunTo(Empty, ops, n - 1), ops[n - 1]);
    }
  }

  // ---- each request holds one lease at most ----------------------------------------------------

  lemma {:induction false} LedgerGrows(ops: seq<Op>, owner: seq<nat>, n: nat, m: nat, r: nat)
    requires n <= m <= |ops| == |owner|
    ensures LedgerTo(ops, owner, n, r) <= LedgerTo(ops, owner, m, r)
  {
    hide Entry, RunTo;
    if n < m {
      LedgerGrows(ops, owner, n, m - 1, r);
    }
  }

  lemma HoldsOne(ops: seq<Op>, owner: seq<nat>, n: nat, key: string, r: nat, R: nat)
    requires n <= |ops| && Serves(ops, owner, R) && r < R
    ensures 0 <= E.Outstanding(LedgerTo(ops, owner, n, r), key) <= 1
    ensures n == |ops| ==> E.Outstanding(LedgerTo(ops, owner, n, r), key) == 0
  {
    hide LedgerTo, E.Paired, E.Outstanding;
    var whole, part := LedgerTo(ops, owner, |ops|, r), LedgerTo(ops, owner, n, r);
    LedgerGrows(ops, owner, n, |ops|, r);
    assert part == whole[..|part|];
    E.PairedBalances(whole, |part|, key, key);
  }

  lemma {:induction false} HeldIsSmall(ops: seq<Op>, owner: seq<nat>, n: nat, key: string, k: nat, R: nat)
    requires n <= |ops| && Serves(ops, owner, R) && k <= R
    ensures 0 <= HeldBy(ops, owner, n, key, k) <= k
    ensures n == |ops| ==> HeldBy(ops, owner, n, key, k) == 0
    ensures forall r: nat :: r < k ==> HeldBy(ops, owner, n, key, k) >= E.Outstanding(LedgerTo(ops, owner, n, r), key)
  {
    hide E.Paired, LedgerTo, E.Outstanding;
    if k > 0 {
      HeldIsSmall(ops, owner, n, key, k - 1, R);
      HoldsOne(ops, owner, n, key, k - 1, R);
      forall r: nat | r < k
        ensures HeldBy(ops, owner, n, key, k) >= E.Outstanding(LedgerTo(ops, owner, n, r), key)
      {
        HoldsOne(ops, owner, n, key, r, R);
      }
    }
  }

  /** A release is the request's own: it had the lease out. */
  lemma ReleaseIsHeld(ops: seq<Op>, owner: seq<nat>, i: nat, key: string, R: nat)
    requires i < |ops| && Serves(ops, owner, R) && ops[i] == Release(key)
    ensures E.Outstanding(LedgerTo(ops, owner, i, owner[i]), key) == 1
  {
    hide E.Paired, E.Outstanding, RunTo, LeaseOf;
    var st := RunTo(Empty, ops, i);
    LeaseIsNoRelease(st, ops[i]);
    EntryChange(LedgerTo(ops, owner, i, owner[i]), st, ops[i], key);
    HoldsOne(ops, owner, i, key, owner[i], R);
    HoldsOne(ops, owner, i + 1, key, owner[i], R);
  }

  /** So the retry loops keep the discipline that lease accounting asks for, in any interleaving. */
  lemma RequestsMatch(ops: seq<Op>, owner: seq<nat>, R: nat)
    requires Serves(ops, owner, R)
    ensures Matched(Empty, ops)
  {
    hide Outstanding, E.Outstanding, LedgerTo, HeldBy, E.Paired;
    forall i, k | 0 <= i < |ops| && ops[i] == Release(k) && k != "" ensures Outstanding(Empty, ops, i, k) > 0 {
      ReleaseIsHeld(ops, owner, i, k, R);
      HeldIsSmall(ops, owner, i, k, R, R);
      OutIsHeld(ops, owner, i, k, R);
    }
  }

  // ---- the counters ----------------------------------------------------------------------------

  function LargestLimit(ops: seq<Op>, n: nat): (M: int)
    requires n <= |ops|
    ensures M >= 1
  {
    if n == 0 then 1
    else
      var M := LargestLimit(ops, n - 1);
      if (ops[n - 1].Acquire? || ops[n - 1].TryAcquire?) && ops[n - 1].maxConcurrency > M then ops[n - 1].maxConcurrency else M
  }

  lemma {:induction false} LimitsFit(ops: seq<Op>, n: nat)
    requires n <= |ops|
    ensures forall i :: 0 <= i < n && (ops[i].Acquire? || ops[i].TryAcquire?) ==> ops[i].maxConcurrency <= LargestLimit(ops, n)
  {
    if n > 0 {
      LimitsFit(ops, n - 1);
    }
  }

  /** However the calls of R requests interleave, and whatever else happens to the keys meanwhile: a
      counter never exceeds what the requests hold, which is one lease each at most; it equals that
      unless a reset or a death of the key wiped it; and when all requests are done it is zero. */
  lemma CountersReturn(ops: seq<Op>, owner: seq<nat>, n: nat, key: string, R: nat)
    requires n <= |ops| && Serves(ops, owner, R) && key != ""
    ensures var counter := S.CountOf(RunTo(Empty, ops, n).concurrency, key);
            var held := HeldBy(ops, owner, n, key, R);
            && 0 <= counter <= held <= R
            && (Wipes(ops, n, key) == 0 ==> counter == held)
            && (n == |ops| ==> counter == 0)
  {
    hide Serves, Matched, HeldBy, RunTo, Outstanding, Budget, Wipes, LargestLimit;
    LimitsFit(ops, |ops|);
    RequestsMatch(ops, owner, R);
    LeaseAccounting(ops, n, key, LargestLimit(ops, |ops|));
    OutIsHeld(ops, owner, n, key, R);
    HeldIsSmall(ops, owner, n, key, R, R);
  }
}
