/** What the calls under one lease do to health scores, breaker and scheduler, by status code. */
module LeaseEffects {
  import opened Upstream

  datatype Fault = RateLimit | Rejection | ServerError

  predicate Is(o: CallOutcome, fault: Fault) {
    && o.Status?
    && match fault
       case RateLimit => o.code == 429
       case Rejection => o.code == 401 || o.code == 403
       case ServerError => o.code >= 500
  }

  /** How many of calls i, ..., i + n - 1 met the fault. */
  function Tally(call: nat -> CallOutcome, fault: Fault, i: nat, n: nat): nat {
    if n == 0 then 0 else Tally(call, fault, i, n - 1) + if Is(call(i + n - 1), fault) then 1 else 0
  }

  /** A status below 400 is a success, unless an empty chat completion came with it. */
  predicate Success(o: CallOutcome, chat: bool) {
    o.Status? && o.code < 400 && !(chat && o.code >= 200 && o.emptyChat)
  }

  /** One record a call, with its status, 0 if none came. */
  function Records(key: string, call: nat -> CallOutcome, chat: bool, i: nat, n: nat): seq<Effect> {
    if n == 0 then []
    else
      var o := call(i + n - 1);
      Records(key, call, chat, i, n - 1) + [Recorded(key, Success(o, chat), if o.Status? then o.code else 0)]
  }

  function One(yes: bool): nat {
    if yes then 1 else 0
  }

  /** How often an effect is among the first n. */
  function TimesTo(es: seq<Effect>, e: Effect, n: nat): nat
    requires n <= |es|
  {
    if n == 0 then 0 else TimesTo(es, e, n - 1) + One(es[n - 1] == e)
  }

  function Times(es: seq<Effect>, e: Effect): nat {
    TimesTo(es, e, |es|)
  }

  /** The records among the first n effects. */
  function RecordsTo(es: seq<Effect>, n: nat): seq<Effect>
    requires n <= |es|
  {
    if n == 0 then [] else RecordsTo(es, n - 1) + if es[n - 1].Recorded? then [es[n - 1]] else []
  }

  function RecordsIn(es: seq<Effect>): seq<Effect> {
    RecordsTo(es, |es|)
  }

  lemma {:induction false} Prefixes(a: seq<Effect>, b: seq<Effect>, e: Effect, n: nat)
    requires n <= |a|
    ensures TimesTo(a + b, e, n) == TimesTo(a, e, n) && RecordsTo(a + b, n) == RecordsTo(a, n)
  {
    if n > 0 {
      Prefixes(a, b, e, n - 1);
    }
  }

  lemma {:induction false} Concat(a: seq<Effect>, b: seq<Effect>, e: Effect, n: nat)
    requires n <= |b|
    ensures TimesTo(a + b, e, |a| + n) == Times(a, e) + TimesTo(b, e, n)
    ensures RecordsTo(a + b, |a| + n) == RecordsIn(a) + RecordsTo(b, n)
  {
    if n == 0 {
      Prefixes(a, b, e, |a|);
    } else {
      hide One;
      Concat(a, b, e, n - 1);
      assert (a + b)[|a| + n - 1] == b[n - 1];
    }
  }

  /** The calls' own effects, counted. */
  ghost predicate Tallied(es: seq<Effect>, key: string, limited: nat, rejected: nat, failed: nat) {
    && Times(es, Died(key)) == Times(es, Forgotten(key)) == rejected
    && Times(es, Cooled(key)) == Times(es, PairCooled(key)) == Times(es, BreakerFailure(false)) == limited
    && Times(es, BreakerFailure(true)) == failed
    && forall i :: 0 <= i < |es| ==> es[i].BreakerFailure? || es[i].key == key
  }

  lemma OneCall(key: string, o: CallOutcome, chat: bool)
    ensures Tallied(EffectsOf(key, o, chat), key, One(Is(o, RateLimit)), One(Is(o, Rejection)), One(Is(o, ServerError)))
    ensures RecordsIn(EffectsOf(key, o, chat)) == [Recorded(key, Success(o, chat), if o.Status? then o.code else 0)]
  {
    var es := EffectsOf(key, o, chat);
    hide TimesTo, RecordsTo;
    forall e: Effect { Short(es, e); }
    ShortRecords(es, if Is(o, RateLimit) && !EmptyChat(o, chat) then 1 else 0);
  }

  lemma Short(es: seq<Effect>, e: Effect)
    requires |es| <= 4
    ensures Times(es, e) == One(|es| > 0 && es[0] == e) + One(|es| > 1 && es[1] == e)
                          + One(|es| > 2 && es[2] == e) + One(|es| > 3 && es[3] == e)
  {
    assert TimesTo(es, e, 0) == 0;
    if |es| > 0 { assert TimesTo(es, e, 1) == One(es[0] == e); }
    if |es| > 1 { assert TimesTo(es, e, 2) == TimesTo(es, e, 1) + One(es[1] == e); }
    if |es| > 2 { assert TimesTo(es, e, 3) == TimesTo(es, e, 2) + One(es[2] == e); }
    if |es| > 3 { assert TimesTo(es, e, 4) == TimesTo(es, e, 3) + One(es[3] == e); }
  }

  lemma ShortRecords(es: seq<Effect>, r: nat)
    requires r < |es| <= 4 && forall i :: 0 <= i < |es| ==> (es[i].Recorded? <==> i == r)
    ensures RecordsIn(es) == [es[r]]
  {
    assert RecordsTo(es, 1) == if r == 0 then [es[0]] else [];
    if |es| > 1 { assert RecordsTo(es, 2) == if r <= 1 then [es[r]] else []; }
    if |es| > 2 { assert RecordsTo(es, 3) == if r <= 2 then [es[r]] else []; }
    if |es| > 3 { assert RecordsTo(es, 4) == [es[r]]; }
  }

  lemma TalliedConcat(a: seq<Effect>, b: seq<Effect>, key: string, l: nat, r: nat, f: nat, l': nat, r': nat, f': nat)
    requires Tallied(a, key, l, r, f) && Tallied(b, key, l', r', f')
    ensures Tallied(a + b, key, l + l', r + r', f + f')
  {
    hide TimesTo, RecordsTo;
    forall e: Effect ensures Times(a + b, e) == Times(a, e) + Times(b, e) {
      Concat(a, b, e, |b|);
    }
  }

  /** Over the calls of a lease: the key dies and its health is forgotten once for each 401 or 403; key
      and pair are cooled, and the breaker is told of a rate limit, once for each 429; the breaker is
      told of a server error once for each status of 500 or more; each call leaves one record; and no
      other key is touched. */
  lemma {:induction false} EffectsByStatus(key: string, call: nat -> CallOutcome, chat: bool, i: nat, n: nat)
    ensures var es := EffectsOfCalls(key, call, chat, i, n);
            && Tallied(es, key, Tally(call, RateLimit, i, n), Tally(call, Rejection, i, n), Tally(call, ServerError, i, n))
            && RecordsIn(es) == Records(key, call, chat, i, n)
  {
    hide Is, EffectsOf, Tallied, RecordsTo, Success, TimesTo, One;
    if n == 0 {
      NoCalls(key);
    } else {
      var o := call(i + n - 1);
      var before, more := EffectsOfCalls(key, call, chat, i, n - 1), EffectsOf(key, o, chat);
      EffectsByStatus(key, call, chat, i, n - 1);
      OneCall(key, o, chat);
      TallyStep(call, i, n);
      TalliedConcat(before, more, key, Tally(call, RateLimit, i, n - 1), Tally(call, Rejection, i, n - 1),
                    Tally(call, ServerError, i, n - 1), One(Is(o, RateLimit)), One(Is(o, Rejection)), One(Is(o, ServerError)));
      Concat(before, more, Died(key), |more|);
    }
  }

  lemma TallyStep(call: nat -> CallOutcome, i: nat, n: nat)
    requires n > 0
    ensures forall fault :: Tally(call, fault, i, n) == Tally(call, fault, i, n - 1) + One(Is(call(i + n - 1), fault))
  {
    hide Is;
  }

  lemma NoCalls(key: string)
    ensures Tallied([], key, 0, 0, 0) && RecordsIn([]) == []
  {}

  /** Only the last call of a lease can be a 429, 401 or 403. */
  lemma {:induction false} NoEarlierFault(call: nat -> CallOutcome, chat: bool, i: nat, n: nat)
    requires forall j :: i <= j < i + n ==> Transient(call(j), chat)
    ensures Tally(call, RateLimit, i, n) == 0 && Tally(call, Rejection, i, n) == 0
  {
    if n > 0 {
      NoEarlierFault(call, chat, i, n - 1);
    }
  }

  /** A lease kills its key, or cools it, once at most: exactly when its last call was rejected, or rate
      limited. A killed key's health is forgotten last, so no record of the lease survives it. */
  lemma LeaseEndsWith(key: string, call: nat -> CallOutcome, chat: bool, i: nat, n: nat)
    requires n > 0 && forall j :: i <= j < i + n - 1 ==> Transient(call(j), chat)
    ensures var es, last := EffectsOfCalls(key, call, chat, i, n), call(i + n - 1);
            && Tallied(es, key, One(Is(last, RateLimit)), One(Is(last, Rejection)), Tally(call, ServerError, i, n))
            && (Is(last, Rejection) ==> es != [] && es[|es| - 1] == Forgotten(key))
            && (Is(last, RateLimit) ==> |es| >= 2 && es[|es| - 2..] == [Cooled(key), PairCooled(key)])
  {
    hide Tallied, RecordsTo, Success, TimesTo, Is, EffectsOf;
    EffectsByStatus(key, call, chat, i, n);
    NoEarlierFault(call, chat, i, n - 1);
    TallyStep(call, i, n);
    FaultEffects(key, call(i + n - 1), chat);
  }

  lemma FaultEffects(key: string, o: CallOutcome, chat: bool)
    ensures var es := EffectsOf(key, o, chat);
            && (Is(o, Rejection) ==> es != [] && es[|es| - 1] == Forgotten(key))
            && (Is(o, RateLimit) ==> |es| >= 2 && es[|es| - 2..] == [Cooled(key), PairCooled(key)])
  {  }

  /** An empty chat completion: a chat request, a status from 200 to 399, and nothing in it. */
  predicate Empty(o: CallOutcome, chat: bool) {
    o.Status? && chat && 200 <= o.code <= 399 && o.emptyChat
  }

  /** What the loops make of one outcome, by status code: which outcomes open a stream, which move on to
      another key at once, which are worth another call, and what is answered. */
  lemma OutcomesByStatus(o: CallOutcome, chat: bool)
    ensures Serves(o, chat) <==> o.Status? && o.code < 400 && !Empty(o, chat)
    ensures KeyAtFault(o) <==> o.Status? && o.code in {401, 403, 429}
    ensures Transient(o, chat) <==> o == TransportError(true) || (o.Status? && o.code >= 500) || Empty(o, chat)
    ensures Fragile(o, chat) <==> o.TransportError? || Empty(o, chat)
    ensures ReplyTo(o, chat) == if o.TransportError? || Empty(o, chat) then Answer(502, false, true) else Answer(o.code, o.emptyChat, o.hasBody)
  {}

  /** With budget left, a call is followed by another with the same key exactly if it came to a status of
      500 or more, or else to a transient transport error or an empty chat completion and its nap was
      slept out. */
  lemma GoesOnByStatus(script: Script, chat: bool, c: nat, n: nat, k: nat)
    ensures var o := script.call(c + k);
            GoesOn(script, chat, c, n, k) <==>
              (o.Status? && o.code >= 500) || ((o == TransportError(true) || Empty(o, chat)) && script.nap(n + k))
  {
    hide Transient, Fragile, Empty;
    OutcomesByStatus(script.call(c + k), chat);
    EmptyIsSuccess(script.call(c + k), chat);
  }

  lemma EmptyIsSuccess(o: CallOutcome, chat: bool)
    ensures Empty(o, chat) ==> o.Status? && o.code < 400
  {}
}
