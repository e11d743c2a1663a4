/** The cross-key retry loops: every lease taken is given back, calls are bounded, and a client sees
    the events of one attempt only. */
module Executors {
  import opened Optional
  import opened Products
  import opened SseRelay
  import opened Upstream

  // ---- lease ledgers ---------------------------------------------------------------------------

  /** Each acquire is followed at once by the release of the same key. */
  predicate Paired(l: seq<Lease>) {
    l == []
    || (|l| >= 2 && l[|l| - 1].Released? && l[|l| - 2] == Acquired(l[|l| - 1].key) && Paired(l[..|l| - 2]))
  }

  /** Since `before`, at most n leases were taken, one after the other, and all were given back. */
  predicate LeasedSince(before: seq<Lease>, now: seq<Lease>, n: nat) {
    && |before| <= |now| <= |before| + 2 * n && before == now[..|before|]
    && Paired(now[|before|..])
  }

  lemma LeasedNone(l: seq<Lease>)
    ensures LeasedSince(l, l, 0)
  {}

  lemma LeasedLess(before: seq<Lease>, now: seq<Lease>, n: nat, m: nat)
    requires LeasedSince(before, now, n) && n <= m
    ensures LeasedSince(before, now, m)
  {}

  lemma LeasedMore(before: seq<Lease>, now: seq<Lease>, n: nat, key: string)
    requires LeasedSince(before, now, n)
    ensures LeasedSince(before, now + [Acquired(key)] + [Released(key)], n + 1)
  {
    var later := now + [Acquired(key)] + [Released(key)];
    var more := later[|before|..];
    assert more == now[|before|..] + [Acquired(key)] + [Released(key)];
    assert more[..|more| - 2] == now[|before|..];
  }

  /** The ledger and the number of calls after at most n attempts. */
  predicate Within(w0: seq<Lease>, c0: nat, ledger: seq<Lease>, calls: nat, n: nat, perKey: nat) {
    LeasedSince(w0, ledger, n) && c0 <= calls <= c0 + Product(n, perKey)
  }

  lemma WithinNone(l: seq<Lease>, c: nat, perKey: nat)
    ensures Within(l, c, l, c, 0, perKey)
  {
    LeasedNone(l);
    ProductMore(0, perKey);
  }

  lemma WithinLess(w0: seq<Lease>, c0: nat, l: seq<Lease>, c: nat, n: nat, m: nat, perKey: nat)
    requires Within(w0, c0, l, c, n, perKey) && n <= m
    ensures Within(w0, c0, l, c, m, perKey)
  {}

  // ---- leases and the calls made under them ----------------------------------------------------

  /** Asking for a lease at c. */
  function AskAt(script: Script, patience: nat, c: Cursor): Asked {
    Ask(script, c.acquires, c.polls, c.waits, patience)
  }

  /** One pass of a loop: a lease is asked for; if one is had, the calls it is due are made under it, and
      it is given back. */
  function Turn(script: Script, chat: bool, budget: nat, patience: nat, c: Cursor): Cursor
    requires budget > 0
  {
    var asked := AskAt(script, patience, c);
    var c1 := c.(acquires := c.acquires + 1, polls := asked.polls, waits := asked.waits);
    if !asked.lease.Got? then c1
    else
      var key, made := asked.lease.key, CallsMade(script, chat, c.calls, c.naps, 0, budget);
      c1.(calls := c.calls + made,
          naps := c.naps + NapsTaken(script, chat, c.calls, made, budget),
          ledger := c.ledger + [Acquired(key)] + [Released(key)],
          effects := c.effects + EffectsOfCalls(key, script.call, chat, c.calls, made))
  }

  function Turns(script: Script, chat: bool, budget: nat, patience: nat, c: Cursor, n: nat): Cursor
    requires budget > 0
  {
    if n == 0 then c else Turn(script, chat, budget, patience, Turns(script, chat, budget, patience, c, n - 1))
  }

  /** How many of the first n passes had a lease. */
  function Leases(script: Script, chat: bool, budget: nat, patience: nat, c: Cursor, n: nat): nat
    requires budget > 0
  {
    if n == 0 then 0
    else
      Leases(script, chat, budget, patience, c, n - 1)
      + if LeaseAt(script, chat, budget, patience, c, n - 1).Got? then 1 else 0
  }

  /** What pass i comes to ask. */
  function LeaseAt(script: Script, chat: bool, budget: nat, patience: nat, c: Cursor, i: nat): Acquire
    requires budget > 0
  {
    AskAt(script, patience, Turns(script, chat, budget, patience, c, i)).lease
  }

  /** None of the first n passes ran into the queue's timer. */
  ghost predicate InTime(script: Script, chat: bool, budget: nat, patience: nat, c: Cursor, n: int)
    requires budget > 0
  {
    forall i: nat :: i < n ==> !LeaseAt(script, chat, budget, patience, c, i).QueueTimeout?
  }

  /** After `made` calls with one key, does the loop move on to another key? */
  predicate MovesOn(o: CallOutcome, chat: bool, made: nat, budget: nat) {
    KeyAtFault(o) || (Transient(o, chat) && made == budget)
  }

  lemma FaultMovesOn(o: CallOutcome, chat: bool, made: nat, budget: nat)
    ensures KeyAtFault(o) ==> MovesOn(o, chat, made, budget)
  {}

  /** The outcome of the last call of pass i, and how many calls it made; None if it had no lease. */
  function LastOf(script: Script, chat: bool, budget: nat, patience: nat, c: Cursor, i: nat): Option<(CallOutcome, nat)>
    requires budget > 0
  {
    var before := Turns(script, chat, budget, patience, c, i);
    if !AskAt(script, patience, before).lease.Got? then None
    else
      var made := CallsMade(script, chat, before.calls, before.naps, 0, budget);
      Some((script.call(before.calls + made - 1), made))
  }

  /** A lease shows in the ledger, is given back, and is used: at least one call is made under it, and at
      most the budget. Without a lease nothing is called. */
  lemma TurnMeans(script: Script, chat: bool, budget: nat, patience: nat, c: Cursor)
    requires budget > 0
    ensures var d, lease := Turn(script, chat, budget, patience, c), AskAt(script, patience, c).lease;
            && d.acquires == c.acquires + 1
            && (lease.Got? <==> d.ledger != c.ledger) && (lease.Got? <==> d.calls > c.calls)
            && c.calls <= d.calls <= c.calls + budget
            && (lease.Got? ==> d.ledger == c.ledger + [Acquired(lease.key)] + [Released(lease.key)])
            && (!lease.Got? ==> d == c.(acquires := d.acquires, polls := d.polls, waits := d.waits))
  {
    hide Ask, CallsMade, NapsTaken, EffectsOfCalls;
  }

  lemma TurnWithin(script: Script, chat: bool, budget: nat, patience: nat, c0: Cursor, c: Cursor, n: nat)
    requires budget > 0 && Within(c0.ledger, c0.calls, c.ledger, c.calls, n, budget)
    ensures var d := Turn(script, chat, budget, patience, c);
            Within(c0.ledger, c0.calls, d.ledger, d.calls, n + 1, budget)
  {
    hide Turn, LeasedSince, Product;
    TurnMeans(script, chat, budget, patience, c);
    ProductMore(n, budget);
    var lease := AskAt(script, patience, c).lease;
    if lease.Got? {
      LeasedMore(c0.ledger, c.ledger, n, lease.key);
    } else {
      LeasedLess(c0.ledger, c.ledger, n, n + 1);
    }
  }

  /** Over n passes there are as many runs of calls as leases, each of one call at least and of the
      budget at most, and every lease has been given back. */
  lemma {:induction false} TurnsMean(script: Script, chat: bool, budget: nat, patience: nat, c: Cursor, n: nat)
    requires budget > 0
    ensures var d, k := Turns(script, chat, budget, patience, c, n), Leases(script, chat, budget, patience, c, n);
            && d.acquires == c.acquires + n && k <= n
            && |d.ledger| == |c.ledger| + 2 * k
            && c.calls + k <= d.calls <= c.calls + Product(k, budget)
            && Within(c.ledger, c.calls, d.ledger, d.calls, n, budget)
  {
    hide Turn, Within, AskAt, Product;
    if n == 0 {
      WithinNone(c.ledger, c.calls, budget);
      ProductMore(0, budget);
    } else {
      var before := Turns(script, chat, budget, patience, c, n - 1);
      TurnsMean(script, chat, budget, patience, c, n - 1);
      TurnMeans(script, chat, budget, patience, before);
      TurnWithin(script, chat, budget, patience, c, before, n - 1);
      ProductMore(Leases(script, chat, budget, patience, c, n - 1), budget);
    }
  }

  // ---- translated streams ----------------------------------------------------------------------

  /** What one attempt's translator has written, and its two flags. */
  datatype Shown<E> = Shown(written: seq<E>, started: bool, hasContent: bool)

  /** What the relay makes of the body that call i opened. */
  function RelayedBy(script: Script, i: nat, decode: Decoder): Relay {
    Relayed(script.stream(i).body, script.stream(i).how, decode)
  }

  /** A translator, as a function of what the relay hands it. */
  type Translate<!E> = seq<Handed> -> Shown<E>

  /** It has started exactly when it has written something. */
  ghost predicate Honest<E>(translate: Translate<E>) {
    forall h: seq<Handed> :: translate(h).started <==> translate(h).written != []
  }

  datatype Verdict = ClientGone | NoKeyInTime | Interrupted | Succeeded | Failed | Exhausted | SilentFallback

  /** Every attempt but the last wrote nothing. */
  predicate OnlyLastWrites<E(==)>(shown: seq<seq<E>>) {
    forall i :: 0 <= i < |shown| - 1 ==> shown[i] == []
  }

  predicate NoneWrites<E(==)>(shown: seq<seq<E>>) {
    forall i :: 0 <= i < |shown| ==> shown[i] == []
  }

  /** Call c opened a stream that ends the loop: it broke off, or its translator has content. */
  ghost predicate Shows<E>(script: Script, decode: Decoder, translate: Translate<E>, c: nat) {
    && Serves(script.call(c), false)
    && var relayed := RelayedBy(script, c, decode);
    relayed.failed || translate(relayed.handed).hasContent || translate(relayed.handed).started
  }

  /** None of calls a, ..., b - 1 did. */
  ghost predicate NoneShows<E>(script: Script, decode: Decoder, translate: Translate<E>, a: nat, b: nat) {
    forall c :: a <= c < b ==> !Shows(script, decode, translate, c)
  }

  lemma TransientCallsShowNothing<E>(script: Script, decode: Decoder, translate: Translate<E>, a: nat, b: nat, d: nat)
    requires NoneShows(script, decode, translate, a, b) && a <= b
    requires forall c :: b <= c < d ==> Transient(script.call(c), false)
    ensures NoneShows(script, decode, translate, a, d)
  {
    forall c | b <= c < d ensures !Shows(script, decode, translate, c) {
      TransientDoesNotServe(script.call(c), false);
    }
  }

  lemma NothingShown<E>(script: Script, decode: Decoder, translate: Translate<E>, a: nat)
    ensures NoneShows(script, decode, translate, a, a)
  {}

  lemma LastShowsNothing<E>(script: Script, decode: Decoder, translate: Translate<E>, a: nat, c: nat)
    requires NoneShows(script, decode, translate, a, c) && !Shows(script, decode, translate, c)
    ensures NoneShows(script, decode, translate, a, c + 1)
  {}

  /** The context was found ended at the last check if `gone`, and never before. */
  ghost predicate ChecksSay(script: Script, from0: nat, upto: nat, gone: bool) {
    && from0 <= upto && (gone ==> from0 < upto && script.contextEnded(upto - 1))
    && forall i :: from0 <= i < upto && (i < upto - 1 || !gone) ==> !script.contextEnded(i)
  }

  /** One pass of a stream loop: no key in time, no key at all, no stream opened, a stream that showed
      nothing, or one that ended the loop. */
  datatype Round<E> = TimerFired | NoLease | NotOpened(switchKey: bool) | Empty(written: seq<E>) | Done(handed: seq<Handed>, failed: bool)

  /** The part the two stream loops share: a lease, the calls under it, and the relay of what they
      opened. Every lease is used, and the last call made under it decides. */
  method StreamRound<E(==)>(w: World, transportRetries: int, patience: nat, decode: Decoder, translate: Translate<E>)
    returns (round: Round<E>, key: string)
    modifies w
    ensures w.Now() == Turn(w.script, false, SameKeyBudget(transportRetries), patience, old(w.Now())) && w.checks == old(w.checks)
    ensures w.calls > old(w.calls) <==> w.ledger != old(w.ledger)
    ensures w.calls > old(w.calls) <==> AskAt(w.script, patience, old(w.Now())).lease.Got?
    ensures var lease := AskAt(w.script, patience, old(w.Now())).lease;
            && key == (if lease.Got? then lease.key else "")
            && (round.TimerFired? <==> lease.QueueTimeout?) && (round.NoLease? <==> lease.AcquireFailed?)
            && (round.NotOpened? <==> lease.Got? && !Serves(w.script.call(w.calls - 1), false))
            && (round.Done? <==> lease.Got? && Shows(w.script, decode, translate, w.calls - 1))
    ensures round.TimerFired? ==> GaveUpWaiting(w.script, w.polls, w.waits)
    ensures NoneShows(w.script, decode, translate, old(w.calls), if round.Done? then w.calls - 1 else w.calls)
    ensures round.Done? ==>
              && round.handed == RelayedBy(w.script, w.calls - 1, decode).handed
              && round.failed == RelayedBy(w.script, w.calls - 1, decode).failed
    ensures round.NotOpened? ==>
              (round.switchKey <==>
                 MovesOn(w.script.call(w.calls - 1), false, w.calls - old(w.calls), SameKeyBudget(transportRetries)))
    ensures Honest(translate) && round.Empty? ==> round.written == []
  {
    hide RelayedBy, NoneShows, Serves, Transient, KeyAtFault, FromQueue, GaveUpWaiting, CallsMade, NapsTaken, EffectsOfCalls, Ask, SameKeyBudget;
    key := "";
    NothingShown(w.script, decode, translate, w.calls);
    var lease := w.AcquirePreferred(patience);
    if lease.QueueTimeout? {
      return TimerFired, key;
    }
    if lease.AcquireFailed? {
      return NoLease, key;
    }
    key := lease.key;
    var attempt := w.OpenStream(key, transportRetries);
    TransientCallsShowNothing(w.script, decode, translate, old(w.calls), old(w.calls), w.calls - 1);
    if !attempt.Ready? {
      LastShowsNothing(w.script, decode, translate, old(w.calls), w.calls - 1);
      w.Release(key);
      return NotOpened(attempt.SwitchKey?), key;
    }
    var relayed := RelayedBy(w.script, w.calls - 1, decode);
    var t := translate(relayed.handed);
    w.Release(key);
    if relayed.failed || t.hasContent || t.started {
      return Done(relayed.handed, relayed.failed), key;
    }
    LastShowsNothing(w.script, decode, translate, old(w.calls), w.calls - 1);
    return Empty(t.written), key;
  }

  predicate Ended(verdict: Verdict) {
    verdict.Succeeded? || verdict.Interrupted?
  }

  /** executeTranslatedCompatStream; `shown` is what each attempt's translator wrote. */
  method CompatStream<E(==)>(w: World, maxRetries: int, transportRetries: int, patience: nat, silent: bool,
                             decode: Decoder, translate: Translate<E>)
    returns (verdict: Verdict, shown: seq<seq<E>>)
    requires Honest(translate)
    modifies w
    ensures Within(old(w.ledger), old(w.calls), w.ledger, w.calls, CrossKeyBudget(maxRetries) + 5, SameKeyBudget(transportRetries))
    ensures var budget, n := SameKeyBudget(transportRetries), w.acquires - old(w.acquires);
            && 0 <= n <= CrossKeyBudget(maxRetries) + 5 && w.checks - old(w.checks) == n + (if verdict.ClientGone? then 1 else 0)
            && w.Now() == Turns(w.script, false, budget, patience, old(w.Now()), n)
            && InTime(w.script, false, budget, patience, old(w.Now()), n - 1)
            && (verdict.NoKeyInTime? <==> n > 0 && LeaseAt(w.script, false, budget, patience, old(w.Now()), n - 1).QueueTimeout?)
            && (Ended(verdict) <==> w.calls > old(w.calls) && Shows(w.script, decode, translate, w.calls - 1))
    ensures NoneShows(w.script, decode, translate, old(w.calls), if Ended(verdict) then w.calls - 1 else w.calls)
    ensures Ended(verdict) ==>
              && Shows(w.script, decode, translate, w.calls - 1) && |shown| > 0
              && shown[|shown| - 1] == translate(RelayedBy(w.script, w.calls - 1, decode).handed).written
              && (verdict.Interrupted? <==> RelayedBy(w.script, w.calls - 1, decode).failed)
    ensures OnlyLastWrites(shown)
    ensures verdict.ClientGone? || verdict.NoKeyInTime? || verdict.Exhausted? ==> NoneWrites(shown)
    ensures ChecksSay(w.script, old(w.checks), w.checks, verdict.ClientGone?)
    ensures verdict.NoKeyInTime? ==> GaveUpWaiting(w.script, w.polls, w.waits)
    ensures verdict.Exhausted? || verdict.SilentFallback? ==>
              w.acquires == old(w.acquires) + CrossKeyBudget(maxRetries) + 5 && (verdict.SilentFallback? <==> silent)
    ensures verdict.SilentFallback? ==> |shown| > 0 && shown[|shown| - 1] == translate([FinishCalled]).written
    ensures !verdict.Failed?
  {
    hide Within, Shows, NoneShows, RelayedBy, GaveUpWaiting, Serves, Turn, AskAt, KeyAtFault, Transient, SameKeyBudget, CrossKeyBudget, InTime;
    var maxAttempts := CrossKeyBudget(maxRetries) + 5;
    ghost var c0, perKey := w.Now(), SameKeyBudget(transportRetries);
    shown := [];
    TurnsMean(w.script, false, perKey, patience, c0, 0);
    WithinLess(c0.ledger, c0.calls, w.ledger, w.calls, 0, maxAttempts, perKey);
    NothingShown(w.script, decode, translate, c0.calls);
    NoneAsked(w.script, false, perKey, patience, c0);
    for i := 0 to maxAttempts
      invariant w.Now() == Turns(w.script, false, perKey, patience, c0, i) && w.calls >= c0.calls
      invariant Within(c0.ledger, c0.calls, w.ledger, w.calls, maxAttempts, perKey)
      invariant InTime(w.script, false, perKey, patience, c0, i)
      invariant NoneShows(w.script, decode, translate, c0.calls, w.calls) && NoneWrites(shown)
      invariant w.acquires == c0.acquires + i && w.checks == old(w.checks) + i && ChecksSay(w.script, old(w.checks), w.checks, false)
    {
      InTimeUpTo(w.script, false, perKey, patience, c0, i);
      NoneShowsLast(w.script, decode, translate, c0.calls, w.calls);
      var gone := w.ContextEnded();
      if gone {
        return ClientGone, shown;
      }
      ghost var c1 := w.calls;
      var round, key := StreamRound(w, transportRetries, patience, decode, translate);
      TurnsMean(w.script, false, perKey, patience, c0, i + 1);
      WithinLess(c0.ledger, c0.calls, w.ledger, w.calls, i + 1, maxAttempts, perKey);
      ShownUpTo(w.script, decode, translate, c0.calls, c1, if round.Done? then w.calls - 1 else w.calls);
      NoneShowsLast(w.script, decode, translate, c0.calls, w.calls);
      AskedInTime(w.script, false, perKey, patience, c0, i);
      match round {
        case TimerFired => return NoKeyInTime, shown;
        case NoLease =>
        case NotOpened(_) =>
        case Empty(written) => shown := shown + [written];
        case Done(handed, failed) =>
          shown := shown + [translate(handed).written];
          return if failed then Interrupted else Succeeded, shown;
      }
    }
    InTimeUpTo(w.script, false, perKey, patience, c0, maxAttempts);
    NoneShowsLast(w.script, decode, translate, c0.calls, w.calls);
    if !silent {
      return Exhausted, shown;
    }
    shown := shown + [translate([FinishCalled]).written];
    return SilentFallback, shown;
  }

  lemma NoneAsked(script: Script, chat: bool, budget: nat, patience: nat, c: Cursor)
    requires budget > 0
    ensures InTime(script, chat, budget, patience, c, 0) && InTime(script, chat, budget, patience, c, -1)
  {}

  lemma InTimeUpTo(script: Script, chat: bool, budget: nat, patience: nat, c: Cursor, n: nat)
    requires budget > 0 && InTime(script, chat, budget, patience, c, n)
    ensures InTime(script, chat, budget, patience, c, n - 1)
    ensures n > 0 ==> !LeaseAt(script, chat, budget, patience, c, n - 1).QueueTimeout?
  {
    hide LeaseAt;
  }

  lemma AskedInTime(script: Script, chat: bool, budget: nat, patience: nat, c: Cursor, n: nat)
    requires budget > 0 && InTime(script, chat, budget, patience, c, n)
    ensures InTime(script, chat, budget, patience, c, n + 1) <==> !LeaseAt(script, chat, budget, patience, c, n).QueueTimeout?
  {
    hide LeaseAt;
  }

  /** If none of the calls up to the last showed anything, the last did not. */
  lemma NoneShowsLast<E>(script: Script, decode: Decoder, translate: Translate<E>, a: nat, b: nat)
    ensures NoneShows(script, decode, translate, a, b) && a < b ==> !Shows(script, decode, translate, b - 1)
  {
    hide Shows;
  }

  lemma ShownUpTo<E>(script: Script, decode: Decoder, translate: Translate<E>, a: nat, b: nat, c: nat)
    requires NoneShows(script, decode, translate, a, b) && NoneShows(script, decode, translate, b, c) && a <= b
    ensures NoneShows(script, decode, translate, a, c)
  {
    hide Shows;
  }

  /** Pass i of the Responses loop gives up: the queue's timer fired, or no stream was opened although the
      key was not at fault and calls were left. */
  ghost predicate StopsAt(script: Script, budget: nat, patience: nat, c: Cursor, i: int)
    requires budget > 0
  {
    && i >= 0
    && var last := LastOf(script, false, budget, patience, c, i);
    || LeaseAt(script, false, budget, patience, c, i).QueueTimeout?
    || (last.Some? && !Serves(last.value.0, false) && !MovesOn(last.value.0, false, last.value.1, budget))
  }

  ghost predicate GoingOn(script: Script, budget: nat, patience: nat, c: Cursor, n: int)
    requires budget > 0
  {
    forall i: nat :: i < n ==> !StopsAt(script, budget, patience, c, i)
  }

  lemma NoneStopped(script: Script, budget: nat, patience: nat, c: Cursor, n: int)
    requires budget > 0 && n <= 0
    ensures GoingOn(script, budget, patience, c, n)
  {}

  lemma GoingUpTo(script: Script, budget: nat, patience: nat, c: Cursor, n: nat)
    requires budget > 0 && GoingOn(script, budget, patience, c, n)
    ensures GoingOn(script, budget, patience, c, n - 1)
    ensures GoingOn(script, budget, patience, c, n + 1) <==> !StopsAt(script, budget, patience, c, n)
  {
    hide StopsAt;
  }

  /** What a pass that opened no stream tells about the pass as counted from the start. */
  lemma LastOfTurn(script: Script, chat: bool, budget: nat, patience: nat, c: Cursor, i: nat, d: Cursor)
    requires budget > 0 && d == Turns(script, chat, budget, patience, c, i + 1)
    ensures var before := Turns(script, chat, budget, patience, c, i);
            LastOf(script, chat, budget, patience, c, i)
              == if AskAt(script, patience, before).lease.Got? && d.calls > before.calls
                 then Some((script.call(d.calls - 1), d.calls - before.calls)) else None
  {
    hide CallsMade, NapsTaken, EffectsOfCalls, Ask;
  }

  lemma StopsIff(script: Script, budget: nat, patience: nat, c: Cursor, i: nat, d: Cursor, timer: bool, unopened: bool, moves: bool)
    requires budget > 0 && d == Turns(script, false, budget, patience, c, i + 1)
    requires var before := Turns(script, false, budget, patience, c, i);
             var lease := AskAt(script, patience, before).lease;
             && (lease.Got? <==> d.calls > before.calls) && (timer <==> lease.QueueTimeout?)
             && (unopened <==> lease.Got? && !Serves(script.call(d.calls - 1), false))
             && (unopened ==> (moves <==> MovesOn(script.call(d.calls - 1), false, d.calls - before.calls, budget)))
    ensures StopsAt(script, budget, patience, c, i) <==> timer || (unopened && !moves)
  {
    hide MovesOn, Serves, AskAt, LastOf, Turns;
    LastOfTurn(script, false, budget, patience, c, i, d);
  }

  datatype ResponsesVerdict = ErrorStream | Completed | CutOff

  /** executeResponsesStream; `abort` is what the translator has written after Error. */
  method ResponsesStreamed<E(==)>(w: World, maxRetries: int, transportRetries: int, patience: nat,
                                  decode: Decoder, translate: Translate<E>, abort: seq<Handed> -> seq<E>)
    returns (verdict: ResponsesVerdict, shown: seq<seq<E>>)
    requires Honest(translate)
    modifies w
    ensures Within(old(w.ledger), old(w.calls), w.ledger, w.calls, CrossKeyBudget(maxRetries), SameKeyBudget(transportRetries))
    ensures var budget, n := SameKeyBudget(transportRetries), w.acquires - old(w.acquires);
            && 0 <= n <= CrossKeyBudget(maxRetries) && w.checks == old(w.checks)
            && w.Now() == Turns(w.script, false, budget, patience, old(w.Now()), n)
            && GoingOn(w.script, budget, patience, old(w.Now()), n - 1)
            && (!verdict.ErrorStream? <==> w.calls > old(w.calls) && Shows(w.script, decode, translate, w.calls - 1))
            && (verdict.ErrorStream? ==> n == CrossKeyBudget(maxRetries) || StopsAt(w.script, budget, patience, old(w.Now()), n - 1))
    ensures NoneShows(w.script, decode, translate, old(w.calls), if verdict.ErrorStream? then w.calls else w.calls - 1)
    ensures !verdict.ErrorStream? ==>
              && Shows(w.script, decode, translate, w.calls - 1) && |shown| > 0
              && var relayed := RelayedBy(w.script, w.calls - 1, decode);
              && (verdict.CutOff? <==> relayed.failed)
              && shown[|shown| - 1] == if relayed.failed then abort(relayed.handed) else translate(relayed.handed).written
    ensures OnlyLastWrites(shown) && (verdict.ErrorStream? ==> NoneWrites(shown))
    ensures verdict.ErrorStream? ==>
              || w.acquires == old(w.acquires) + CrossKeyBudget(maxRetries)
              || GaveUpWaiting(w.script, w.polls, w.waits)
              || (w.calls > old(w.calls) && !Serves(w.script.call(w.calls - 1), false) && !KeyAtFault(w.script.call(w.calls - 1)))
  {
    hide Within, Shows, NoneShows, RelayedBy, GaveUpWaiting, Serves, Turn, AskAt, KeyAtFault, Transient, SameKeyBudget, CrossKeyBudget,
      GoingOn, MovesOn, LastOf;
    var maxAttempts := CrossKeyBudget(maxRetries);
    ghost var c0, perKey := w.Now(), SameKeyBudget(transportRetries);
    shown := [];
    TurnsMean(w.script, false, perKey, patience, c0, 0);
    WithinLess(c0.ledger, c0.calls, w.ledger, w.calls, 0, maxAttempts, perKey);
    NothingShown(w.script, decode, translate, c0.calls);
    NoneStopped(w.script, perKey, patience, c0, 0);
    for i := 0 to maxAttempts
      invariant w.Now() == Turns(w.script, false, perKey, patience, c0, i) && w.calls >= c0.calls
      invariant Within(c0.ledger, c0.calls, w.ledger, w.calls, maxAttempts, perKey)
      invariant GoingOn(w.script, perKey, patience, c0, i)
      invariant NoneShows(w.script, decode, translate, c0.calls, w.calls) && NoneWrites(shown)
      invariant w.acquires == c0.acquires + i && w.checks == old(w.checks)
    {
      ghost var c1 := w.calls;
      var round, key := StreamRound(w, transportRetries, patience, decode, translate);
      TurnsMean(w.script, false, perKey, patience, c0, i + 1);
      WithinLess(c0.ledger, c0.calls, w.ledger, w.calls, i + 1, maxAttempts, perKey);
      ShownUpTo(w.script, decode, translate, c0.calls, c1, if round.Done? then w.calls - 1 else w.calls);
      NoneShowsLast(w.script, decode, translate, c0.calls, w.calls);
      GoingUpTo(w.script, perKey, patience, c0, i);
      LastOfTurn(w.script, false, perKey, patience, c0, i, w.Now());
      StopsIff(w.script, perKey, patience, c0, i, w.Now(), round.TimerFired?, round.NotOpened?, round.NotOpened? && round.switchKey);
      match round {
        case TimerFired => return ErrorStream, shown;
        case NoLease =>
        case NotOpened(switchKey) =>
          if !switchKey {
            FaultMovesOn(w.script.call(w.calls - 1), false, w.calls - c1, perKey);
            return ErrorStream, shown;
          }
        case Empty(written) => shown := shown + [written];
        case Done(handed, failed) =>
          shown := shown + [if failed then abort(handed) else translate(handed).written];
          return if failed then CutOff else Completed, shown;
      }
    }
    GoingUpTo(w.script, perKey, patience, c0, maxAttempts);
    NoneShowsLast(w.script, decode, translate, c0.calls, w.calls);
    return ErrorStream, shown;
  }

  // ---- plain chat streams ----------------------------------------------------------------------

  datatype Drained = Drained(bytes: string, interrupted: bool)

  /** None of calls a, ..., b - 1 opened a stream. */
  ghost predicate NoneServes(script: Script, a: nat, b: nat) {
    forall c :: a <= c < b ==> !Serves(script.call(c), false)
  }

  lemma TransientCallsServeNothing(script: Script, a: nat, b: nat, d: nat)
    requires NoneServes(script, a, b) && a <= b
    requires forall c :: b <= c < d ==> Transient(script.call(c), false)
    ensures NoneServes(script, a, d)
  {
    forall c | b <= c < d ensures !Serves(script.call(c), false) {
      TransientDoesNotServe(script.call(c), false);
    }
  }

  lemma LastServesNothing(script: Script, a: nat, c: nat)
    requires NoneServes(script, a, c) && !Serves(script.call(c), false)
    ensures NoneServes(script, a, c + 1)
  {}

  datatype PlainRound = OutOfWait | NoKeyGot | Unopened | Delivered(drained: Drained)

  /** One pass: a lease, the calls under it, and the drain of the stream they opened. */
  method PlainPass(w: World, transportRetries: int, patience: nat, drain: nat -> Drained) returns (round: PlainRound, key: string)
    modifies w
    ensures w.Now() == Turn(w.script, false, SameKeyBudget(transportRetries), patience, old(w.Now())) && w.checks == old(w.checks)
    ensures w.calls > old(w.calls) <==> w.ledger != old(w.ledger)
    ensures w.calls > old(w.calls) <==> AskAt(w.script, patience, old(w.Now())).lease.Got?
    ensures var lease := AskAt(w.script, patience, old(w.Now())).lease;
            && key == (if lease.Got? then lease.key else "")
            && (round.OutOfWait? <==> lease.QueueTimeout?) && (round.NoKeyGot? <==> lease.AcquireFailed?)
            && (round.Delivered? <==> lease.Got? && Serves(w.script.call(w.calls - 1), false))
    ensures round.OutOfWait? ==> GaveUpWaiting(w.script, w.polls, w.waits)
    ensures round.Delivered? ==> round.drained == drain(w.calls - 1)
    ensures NoneServes(w.script, old(w.calls), if round.Delivered? then w.calls - 1 else w.calls)
  {
    hide NoneServes, Serves, Transient, GaveUpWaiting, FromQueue, CallsMade, NapsTaken, EffectsOfCalls, Ask, SameKeyBudget;
    key := "";
    NothingServed(w.script, w.calls);
    var lease := w.AcquirePreferred(patience);
    if lease.QueueTimeout? {
      return OutOfWait, key;
    }
    if lease.AcquireFailed? {
      return NoKeyGot, key;
    }
    key := lease.key;
    var attempt := w.OpenStream(key, transportRetries);
    TransientCallsServeNothing(w.script, old(w.calls), old(w.calls), w.calls - 1);
    if !attempt.Ready? {
      LastServesNothing(w.script, old(w.calls), w.calls - 1);
      w.Release(key);
      return Unopened, key;
    }
    var drained := drain(w.calls - 1);
    w.Release(key);
    return Delivered(drained), key;
  }

  lemma ServedUpTo(script: Script, a: nat, b: nat, c: nat)
    requires NoneServes(script, a, b) && NoneServes(script, b, c) && a <= b
    ensures NoneServes(script, a, c)
  {
    hide Serves;
  }

  /** executeOpenAIStream after the cache; `drain` is what one open stream delivers to the client. */
  method PlainStream(w: World, maxRetries: int, transportRetries: int, patience: nat, silent: bool, drain: nat -> Drained)
    returns (verdict: Verdict, client: seq<string>)
    modifies w
    ensures Within(old(w.ledger), old(w.calls), w.ledger, w.calls, CrossKeyBudget(maxRetries) + 5, SameKeyBudget(transportRetries))
    ensures var budget, n := SameKeyBudget(transportRetries), w.acquires - old(w.acquires);
            && 0 <= n <= CrossKeyBudget(maxRetries) + 5 && w.checks - old(w.checks) == n + (if verdict.ClientGone? then 1 else 0)
            && w.Now() == Turns(w.script, false, budget, patience, old(w.Now()), n)
            && InTime(w.script, false, budget, patience, old(w.Now()), n - 1)
            && (verdict.NoKeyInTime? <==> n > 0 && LeaseAt(w.script, false, budget, patience, old(w.Now()), n - 1).QueueTimeout?)
            && (Ended(verdict) <==> w.calls > old(w.calls) && Serves(w.script.call(w.calls - 1), false))
    ensures NoneServes(w.script, old(w.calls), if Ended(verdict) then w.calls - 1 else w.calls)
    ensures Ended(verdict) ==>
              && Serves(w.script.call(w.calls - 1), false)
              && client == [drain(w.calls - 1).bytes] && (verdict.Interrupted? <==> drain(w.calls - 1).interrupted)
    ensures !Ended(verdict) ==> client == []
    ensures ChecksSay(w.script, old(w.checks), w.checks, verdict.ClientGone?)
    ensures verdict.NoKeyInTime? ==> GaveUpWaiting(w.script, w.polls, w.waits)
    ensures verdict.Exhausted? || verdict.SilentFallback? ==>
              w.acquires == old(w.acquires) + CrossKeyBudget(maxRetries) + 5 && (verdict.SilentFallback? <==> silent)
    ensures !verdict.Failed?
  {
    hide Within, NoneServes, Serves, GaveUpWaiting, Turn, AskAt, SameKeyBudget, CrossKeyBudget, InTime;
    var maxAttempts := CrossKeyBudget(maxRetries) + 5;
    ghost var c0, perKey := w.Now(), SameKeyBudget(transportRetries);
    client := [];
    TurnsMean(w.script, false, perKey, patience, c0, 0);
    WithinLess(c0.ledger, c0.calls, w.ledger, w.calls, 0, maxAttempts, perKey);
    NothingServed(w.script, c0.calls);
    NoneAsked(w.script, false, perKey, patience, c0);
    for i := 0 to maxAttempts
      invariant w.Now() == Turns(w.script, false, perKey, patience, c0, i) && w.calls >= c0.calls
      invariant Within(c0.ledger, c0.calls, w.ledger, w.calls, maxAttempts, perKey)
      invariant InTime(w.script, false, perKey, patience, c0, i)
      invariant client == [] && NoneServes(w.script, c0.calls, w.calls)
      invariant w.acquires == c0.acquires + i && w.checks == old(w.checks) + i && ChecksSay(w.script, old(w.checks), w.checks, false)
    {
      InTimeUpTo(w.script, false, perKey, patience, c0, i);
      NoneServesLast(w.script, c0.calls, w.calls);
      var gone := w.ContextEnded();
      if gone {
        return ClientGone, client;
      }
      ghost var c1 := w.calls;
      var round, key := PlainPass(w, transportRetries, patience, drain);
      TurnsMean(w.script, false, perKey, patience, c0, i + 1);
      WithinLess(c0.ledger, c0.calls, w.ledger, w.calls, i + 1, maxAttempts, perKey);
      ServedUpTo(w.script, c0.calls, c1, if round.Delivered? then w.calls - 1 else w.calls);
      NoneServesLast(w.script, c0.calls, w.calls);
      AskedInTime(w.script, false, perKey, patience, c0, i);
      if round.OutOfWait? {
        return NoKeyInTime, client;
      }
      if round.Delivered? {
        client := client + [round.drained.bytes];
        return if round.drained.interrupted then Interrupted else Succeeded, client;
      }
    }
    InTimeUpTo(w.script, false, perKey, patience, c0, maxAttempts);
    NoneServesLast(w.script, c0.calls, w.calls);
    return if silent then SilentFallback else Exhausted, client;
  }

  lemma NoneServesLast(script: Script, a: nat, b: nat)
    ensures NoneServes(script, a, b) && a < b ==> !Serves(script.call(b - 1), false)
  {
    hide Serves;
  }

  lemma NothingServed(script: Script, a: nat)
    ensures NoneServes(script, a, a)
  {}

  // ---- JSON requests ---------------------------------------------------------------------------

  /** What the client is answered. */
  datatype Response = Gone | Timeout | Answered(code: int) | BadGateway | FakeAnswer

  /** A call after which the loop answers: a success, a response with a body, or an error of its own. */
  predicate Conclusive(o: CallOutcome, chat: bool) {
    match o
    case TransportError(transient) => !transient
    case Status(code, _, hasBody) => ClassifyStatus(code).Terminal? && !EmptyChat(o, chat) && (200 <= code < 300 || hasBody)
  }

  ghost predicate NoneConclusive(script: Script, chat: bool, a: nat, b: nat) {
    forall c :: a <= c < b ==> !Conclusive(script.call(c), chat)
  }

  lemma TransientCallsConcludeNothing(script: Script, chat: bool, a: nat, b: nat, d: nat)
    requires NoneConclusive(script, chat, a, b) && a <= b
    requires forall c :: b <= c < d ==> Transient(script.call(c), chat)
    ensures NoneConclusive(script, chat, a, d)
  {
    forall c | b <= c < d ensures !Conclusive(script.call(c), chat) {
      assert Transient(script.call(c), chat);
    }
  }

  lemma NothingConcluded(script: Script, chat: bool, a: nat)
    ensures NoneConclusive(script, chat, a, a)
  {}

  lemma LastConcludesNothing(script: Script, chat: bool, a: nat, c: nat)
    requires NoneConclusive(script, chat, a, c) && !Conclusive(script.call(c), chat)
    ensures NoneConclusive(script, chat, a, c + 1)
  {}

  datatype JSONRound = OutOfTime | Unleased | KeySpent | Replied(code: int, emptyChat: bool, hasBody: bool)

  /** Does the loop answer with this reply? */
  predicate Settles(round: JSONRound) {
    round.Replied? && (200 <= round.code < 300 || round.hasBody)
  }

  /** Do the JSON loops answer once the last of `made` calls with one key came to this? */
  predicate Answers(o: CallOutcome, chat: bool, made: nat, budget: nat) {
    && !MovesOn(o, chat, made, budget)
    && (200 <= ReplyTo(o, chat).code < 300 || ReplyTo(o, chat).hasBody)
  }

  /** Pass i of a JSON loop ends it: with an answer, or because the queue's timer fired. */
  ghost predicate AnswersAt(script: Script, chat: bool, budget: nat, patience: nat, c: Cursor, i: int)
    requires budget > 0
  {
    && i >= 0
    && var last := LastOf(script, chat, budget, patience, c, i);
    last.Some? && Answers(last.value.0, chat, last.value.1, budget)
  }

  ghost predicate NoAnswer(script: Script, chat: bool, budget: nat, patience: nat, c: Cursor, n: int)
    requires budget > 0
  {
    forall i: nat :: i < n ==> !AnswersAt(script, chat, budget, patience, c, i)
  }

  lemma NoneAnswered(script: Script, chat: bool, budget: nat, patience: nat, c: Cursor, n: int)
    requires budget > 0 && n <= 0
    ensures NoAnswer(script, chat, budget, patience, c, n)
  {}

  lemma NoAnswerUpTo(script: Script, chat: bool, budget: nat, patience: nat, c: Cursor, n: nat)
    requires budget > 0 && NoAnswer(script, chat, budget, patience, c, n)
    ensures NoAnswer(script, chat, budget, patience, c, n - 1) && !AnswersAt(script, chat, budget, patience, c, n - 1)
    ensures NoAnswer(script, chat, budget, patience, c, n + 1) <==> !AnswersAt(script, chat, budget, patience, c, n)
  {
    hide LastOf, Answers;
  }

  lemma AnswersIff(script: Script, chat: bool, budget: nat, patience: nat, c: Cursor, i: nat, d: Cursor)
    requires budget > 0 && d == Turns(script, chat, budget, patience, c, i + 1)
    requires var before := Turns(script, chat, budget, patience, c, i);
             AskAt(script, patience, before).lease.Got? <==> d.calls > before.calls
    ensures var before := Turns(script, chat, budget, patience, c, i);
            AnswersAt(script, chat, budget, patience, c, i) <==>
              d.calls > before.calls && Answers(script.call(d.calls - 1), chat, d.calls - before.calls, budget)
  {
    hide Answers, AskAt, LastOf, Turns;
    LastOfTurn(script, chat, budget, patience, c, i, d);
  }

  /** The part the JSON loops share: a lease, the calls under it, and the release. */
  method JSONPass(w: World, transportRetries: int, patience: nat, chat: bool) returns (round: JSONRound, key: string)
    modifies w
    ensures w.Now() == Turn(w.script, chat, SameKeyBudget(transportRetries), patience, old(w.Now())) && w.checks == old(w.checks)
    ensures w.calls > old(w.calls) <==> w.ledger != old(w.ledger)
    ensures w.calls > old(w.calls) <==> AskAt(w.script, patience, old(w.Now())).lease.Got?
    ensures var lease := AskAt(w.script, patience, old(w.Now())).lease;
            && key == (if lease.Got? then lease.key else "")
            && (round.OutOfTime? <==> lease.QueueTimeout?) && (round.Unleased? <==> lease.AcquireFailed?)
    ensures w.calls > old(w.calls) ==>
              (round.KeySpent? <==> MovesOn(w.script.call(w.calls - 1), chat, w.calls - old(w.calls), SameKeyBudget(transportRetries)))
    ensures round.OutOfTime? ==> GaveUpWaiting(w.script, w.polls, w.waits)
    ensures round.Replied? ==> ReplyTo(w.script.call(w.calls - 1), chat) == Answer(round.code, round.emptyChat, round.hasBody)
    ensures Settles(round) <==>
              && w.calls > old(w.calls)
              && Answers(w.script.call(w.calls - 1), chat, w.calls - old(w.calls), SameKeyBudget(transportRetries))
    ensures NoneConclusive(w.script, chat, old(w.calls), if Settles(round) then w.calls - 1 else w.calls)
    ensures Settles(round) ==> Conclusive(w.script.call(w.calls - 1), chat) || NapCut(w.script.nap, w.naps)
    ensures round.Replied? && chat && 200 <= round.code < 300 ==> !round.emptyChat
  {
    hide NoneConclusive, FromQueue, GaveUpWaiting, CallsMade, NapsTaken, EffectsOfCalls, Ask, SameKeyBudget;
    key := "";
    NothingConcluded(w.script, chat, w.calls);
    var lease := w.AcquirePreferred(patience);
    if lease.QueueTimeout? {
      return OutOfTime, key;
    }
    if lease.AcquireFailed? {
      return Unleased, key;
    }
    key := lease.key;
    var reply := w.CallJSON(key, transportRetries, chat);
    TransientCallsConcludeNothing(w.script, chat, old(w.calls), old(w.calls), w.calls - 1);
    w.Release(key);
    if reply.NextKey? {
      LastConcludesNothing(w.script, chat, old(w.calls), w.calls - 1);
      return KeySpent, key;
    }
    round := Replied(reply.code, reply.emptyChat, reply.hasBody);
    if !Settles(round) {
      LastConcludesNothing(w.script, chat, old(w.calls), w.calls - 1);
    }
  }

  lemma ConcludedUpTo(script: Script, chat: bool, a: nat, b: nat, c: nat)
    requires NoneConclusive(script, chat, a, b) && NoneConclusive(script, chat, b, c) && a <= b
    ensures NoneConclusive(script, chat, a, c)
  {
    hide Conclusive;
  }

  /** executeOpenAINonStream after the cache. */
  method ChatNonStream(w: World, maxRetries: int, transportRetries: int, patience: nat, silent: bool) returns (r: Response)
    modifies w
    ensures Within(old(w.ledger), old(w.calls), w.ledger, w.calls, CrossKeyBudget(maxRetries) + 5, SameKeyBudget(transportRetries))
    ensures var budget, n := SameKeyBudget(transportRetries), w.acquires - old(w.acquires);
            && 0 <= n <= CrossKeyBudget(maxRetries) + 5 && w.checks - old(w.checks) == n + (if r.Gone? then 1 else 0)
            && w.Now() == Turns(w.script, true, budget, patience, old(w.Now()), n)
            && InTime(w.script, true, budget, patience, old(w.Now()), n - 1) && NoAnswer(w.script, true, budget, patience, old(w.Now()), n - 1)
            && (r.Timeout? <==> n > 0 && LeaseAt(w.script, true, budget, patience, old(w.Now()), n - 1).QueueTimeout?)
            && (r.Answered? <==> AnswersAt(w.script, true, budget, patience, old(w.Now()), n - 1))
    ensures r.Answered? ==> w.calls > old(w.calls)
    ensures NoneConclusive(w.script, true, old(w.calls), if r.Answered? then w.calls - 1 else w.calls)
    ensures r.Answered? ==>
              && ReplyTo(w.script.call(w.calls - 1), true).code == r.code
              && (Conclusive(w.script.call(w.calls - 1), true) || NapCut(w.script.nap, w.naps))
    ensures ChecksSay(w.script, old(w.checks), w.checks, r.Gone?)
    ensures r.Timeout? ==> GaveUpWaiting(w.script, w.polls, w.waits)
    ensures r.FakeAnswer? || r.BadGateway? ==>
              w.acquires == old(w.acquires) + CrossKeyBudget(maxRetries) + 5 && (r.FakeAnswer? <==> silent)
  {
    hide Within, NoneConclusive, Conclusive, GaveUpWaiting, Turn, AskAt, SameKeyBudget, CrossKeyBudget, InTime, NoAnswer, AnswersAt, Answers,
      MovesOn;
    var maxAttempts := CrossKeyBudget(maxRetries) + 5;
    ghost var c0, perKey := w.Now(), SameKeyBudget(transportRetries);
    TurnsMean(w.script, true, perKey, patience, c0, 0);
    WithinLess(c0.ledger, c0.calls, w.ledger, w.calls, 0, maxAttempts, perKey);
    NothingConcluded(w.script, true, c0.calls);
    NoneAsked(w.script, true, perKey, patience, c0);
    NoneAnswered(w.script, true, perKey, patience, c0, 0);
    for i := 0 to maxAttempts
      invariant w.Now() == Turns(w.script, true, perKey, patience, c0, i) && w.calls >= c0.calls
      invariant Within(c0.ledger, c0.calls, w.ledger, w.calls, maxAttempts, perKey)
      invariant InTime(w.script, true, perKey, patience, c0, i) && NoAnswer(w.script, true, perKey, patience, c0, i)
      invariant NoneConclusive(w.script, true, c0.calls, w.calls)
      invariant w.acquires == c0.acquires + i && w.checks == old(w.checks) + i && ChecksSay(w.script, old(w.checks), w.checks, false)
    {
      InTimeUpTo(w.script, true, perKey, patience, c0, i);
      NoAnswerUpTo(w.script, true, perKey, patience, c0, i);
      var gone := w.ContextEnded();
      if gone {
        return Gone;
      }
      ghost var c1 := w.calls;
      var round, key := JSONPass(w, transportRetries, patience, true);
      TurnsMean(w.script, true, perKey, patience, c0, i + 1);
      WithinLess(c0.ledger, c0.calls, w.ledger, w.calls, i + 1, maxAttempts, perKey);
      ConcludedUpTo(w.script, true, c0.calls, c1, if Settles(round) then w.calls - 1 else w.calls);
      AskedInTime(w.script, true, perKey, patience, c0, i);
      AnswersIff(w.script, true, perKey, patience, c0, i, w.Now());
      if round.OutOfTime? {
        return Timeout;
      }
      if round.Unleased? || round.KeySpent? {
        continue;
      }
      if 200 <= round.code < 300 {
        if round.emptyChat {
          // An empty completion never gets this far: the same-key loop has already retried it.
          assert false;
        } else {
          return Answered(round.code);
        }
      } else if round.hasBody {
        return Answered(round.code);
      }
    }
    InTimeUpTo(w.script, true, perKey, patience, c0, maxAttempts);
    NoAnswerUpTo(w.script, true, perKey, patience, c0, maxAttempts);
    return if silent then FakeAnswer else BadGateway;
  }

  /** executeOpenAIJSONPath and fetchUpstreamModels share this loop. */
  method JSONPath(w: World, maxRetries: int, transportRetries: int, patience: nat) returns (r: Response)
    modifies w
    ensures Within(old(w.ledger), old(w.calls), w.ledger, w.calls, CrossKeyBudget(maxRetries), SameKeyBudget(transportRetries))
    ensures var budget, n := SameKeyBudget(transportRetries), w.acquires - old(w.acquires);
            && 0 <= n <= CrossKeyBudget(maxRetries) && w.checks == old(w.checks)
            && w.Now() == Turns(w.script, false, budget, patience, old(w.Now()), n)
            && InTime(w.script, false, budget, patience, old(w.Now()), n - 1) && NoAnswer(w.script, false, budget, patience, old(w.Now()), n - 1)
            && (r.Timeout? <==> n > 0 && LeaseAt(w.script, false, budget, patience, old(w.Now()), n - 1).QueueTimeout?)
            && (r.Answered? <==> AnswersAt(w.script, false, budget, patience, old(w.Now()), n - 1))
    ensures r.Answered? ==> w.calls > old(w.calls)
    ensures NoneConclusive(w.script, false, old(w.calls), if r.Answered? then w.calls - 1 else w.calls)
    ensures r.Answered? ==>
              && ReplyTo(w.script.call(w.calls - 1), false).code == r.code
              && (Conclusive(w.script.call(w.calls - 1), false) || NapCut(w.script.nap, w.naps))
    ensures r.Timeout? ==> GaveUpWaiting(w.script, w.polls, w.waits)
    ensures r.BadGateway? ==> w.acquires == old(w.acquires) + CrossKeyBudget(maxRetries)
    ensures !r.Gone? && !r.FakeAnswer?
  {
    hide Within, NoneConclusive, Conclusive, GaveUpWaiting, Turn, AskAt, SameKeyBudget, CrossKeyBudget, InTime, NoAnswer, AnswersAt, Answers,
      MovesOn;
    var maxAttempts := CrossKeyBudget(maxRetries);
    ghost var c0, perKey := w.Now(), SameKeyBudget(transportRetries);
    TurnsMean(w.script, false, perKey, patience, c0, 0);
    WithinLess(c0.ledger, c0.calls, w.ledger, w.calls, 0, maxAttempts, perKey);
    NothingConcluded(w.script, false, c0.calls);
    NoneAsked(w.script, false, perKey, patience, c0);
    NoneAnswered(w.script, false, perKey, patience, c0, 0);
    for i := 0 to maxAttempts
      invariant w.Now() == Turns(w.script, false, perKey, patience, c0, i) && w.calls >= c0.calls
      invariant Within(c0.ledger, c0.calls, w.ledger, w.calls, maxAttempts, perKey)
      invariant InTime(w.script, false, perKey, patience, c0, i) && NoAnswer(w.script, false, perKey, patience, c0, i)
      invariant NoneConclusive(w.script, false, c0.calls, w.calls)
      invariant w.acquires == c0.acquires + i && w.checks == old(w.checks)
    {
      InTimeUpTo(w.script, false, perKey, patience, c0, i);
      NoAnswerUpTo(w.script, false, perKey, patience, c0, i);
      ghost var c1 := w.calls;
      var round, key := JSONPass(w, transportRetries, patience, false);
      TurnsMean(w.script, false, perKey, patience, c0, i + 1);
      WithinLess(c0.ledger, c0.calls, w.ledger, w.calls, i + 1, maxAttempts, perKey);
      ConcludedUpTo(w.script, false, c0.calls, c1, if Settles(round) then w.calls - 1 else w.calls);
      AskedInTime(w.script, false, perKey, patience, c0, i);
      AnswersIff(w.script, false, perKey, patience, c0, i, w.Now());
      if round.OutOfTime? {
        return Timeout;
      }
      if round.Unleased? || round.KeySpent? {
        continue;
      }
      if 200 <= round.code < 300 || round.hasBody {
        return Answered(round.code);
      }
    }
    InTimeUpTo(w.script, false, perKey, patience, c0, maxAttempts);
    NoAnswerUpTo(w.script, false, perKey, patience, c0, maxAttempts);
    return BadGateway;
  }

  // ---- what a paired ledger means --------------------------------------------------------------

  function CountAcquired(l: seq<Lease>, key: string): nat {
    if l == [] then 0 else CountAcquired(l[..|l| - 1], key) + if l[|l| - 1] == Acquired(key) then 1 else 0
  }

  function CountReleased(l: seq<Lease>, key: string): nat {
    if l == [] then 0 else CountReleased(l[..|l| - 1], key) + if l[|l| - 1] == Released(key) then 1 else 0
  }

  /** How many of a key's leases are still out. */
  function Outstanding(l: seq<Lease>, key: string): int {
    CountAcquired(l, key) - CountReleased(l, key)
  }

  function Change(e: Lease, key: string): int {
    if e == Acquired(key) then 1 else if e == Released(key) then -1 else 0
  }

  lemma LastOne(l: seq<Lease>, key: string)
    requires l != []
    ensures Outstanding(l, key) == Outstanding(l[..|l| - 1], key) + Change(l[|l| - 1], key)
  {}

  lemma LastTwo(l: seq<Lease>, key: string)
    requires |l| >= 2
    ensures Outstanding(l, key) == Outstanding(l[..|l| - 2], key) + Change(l[|l| - 2], key) + Change(l[|l| - 1], key)
  {
    var front := l[..|l| - 1];
    assert front[..|front| - 1] == l[..|l| - 2] && front[|front| - 1] == l[|l| - 2];
    LastOne(l, key);
    LastOne(front, key);
  }

  /** Exactly the keys acquired are released; on the way, at most one lease is out, of one key. */
  lemma {:induction false} PairedBalances(l: seq<Lease>, n: nat, key: string, other: string)
    requires Paired(l) && n <= |l|
    ensures Outstanding(l, key) == 0
    ensures 0 <= Outstanding(l[..n], key) <= 1
    ensures key != other && Outstanding(l[..n], key) == 1 ==> Outstanding(l[..n], other) == 0
    decreases |l|
  {
    if l == [] {
      assert l[..n] == [];
    } else {
      var front := l[..|l| - 2];
      LastTwo(l, key);
      LastTwo(l, other);
      if n <= |front| {
        assert l[..n] == front[..n];
        PairedBalances(front, n, key, other);
      } else {
        PairedBalances(front, |front|, key, other);
        PairedBalances(front, |front|, other, key);
        assert front[..|front|] == front;
        if n == |l| {
          assert l[..n] == l;
        } else {
          assert l[..n] == front + [l[|l| - 2]];
          OneOpen(front, l[|l| - 2].key, key);
          OneOpen(front, l[|l| - 2].key, other);
        }
      }
    }
  }

  lemma OneOpen(front: seq<Lease>, k: string, key: string)
    ensures Outstanding(front + [Acquired(k)], key) == Outstanding(front, key) + if k == key then 1 else 0
  {}
}
