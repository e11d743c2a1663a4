/** One lease and the upstream calls made under it: acquiring a key, the same-key transport retries,
    and the error policy. */
module Upstream {
  import opened Optional
  import opened SseRelay

  // ---- what the world answers ------------------------------------------------------------------

  /** What one upstream call comes to; `emptyChat` says a body is an empty chat completion. */
  datatype CallOutcome = TransportError(transient: bool) | Status(code: int, emptyChat: bool, hasBody: bool)

  datatype TryOutcome = Granted | Denied | TryFailed

  datatype PollOutcome = Found(key: string) | NoKey | PollFailed

  datatype WaitOutcome = Tick | Cancelled | TimedOut

  /** A body the upstream streams, and how it stops. */
  datatype Streamed = Streamed(body: string, how: Ending)

  /** Every answer the outside gives, by how often it has been asked before; `preferred` and `tryKey`
      by how many keys have been asked for. */
  datatype Script = Script(
    call: nat -> CallOutcome,
    nap: nat -> bool,
    preferred: nat -> Option<string>,
    tryKey: nat -> TryOutcome,
    poll: nat -> PollOutcome,
    wait: nat -> WaitOutcome,
    contextEnded: nat -> bool,
    stream: nat -> Streamed)

  datatype Lease = Acquired(key: string) | Released(key: string)

  datatype Effect =
    | Recorded(key: string, success: bool, statusCode: int)
    | BreakerFailure(is5xx: bool)
    | Cooled(key: string)
    | PairCooled(key: string)
    | Died(key: string)
    | Forgotten(key: string)

  // ---- the policy ------------------------------------------------------------------------------

  datatype Policy = Terminal | NetworkTransient | KeyRateLimited | KeyAuthRejected

  function ClassifyStatus(code: int): Policy {
    if code == 429 then KeyRateLimited
    else if code == 401 || code == 403 then KeyAuthRejected
    else if code >= 500 then NetworkTransient
    else Terminal
  }

  const DEFAULT_MAX_RETRIES := 5
  const DEFAULT_TRANSPORT_RETRIES := 2

  function CrossKeyBudget(maxRetries: int): (n: nat)
    ensures n == if maxRetries < 0 then 6 else maxRetries + 1
  {
    (if maxRetries < 0 then DEFAULT_MAX_RETRIES else maxRetries) + 1
  }

  /** Calls one lease may make. */
  function SameKeyBudget(transportRetries: int): (n: nat)
    ensures n == if transportRetries <= 0 then 3 else transportRetries + 1
  {
    (if transportRetries <= 0 then DEFAULT_TRANSPORT_RETRIES else transportRetries) + 1
  }

  predicate EmptyChat(o: CallOutcome, chat: bool) {
    o.Status? && chat && 200 <= o.code < 400 && o.emptyChat
  }

  /** Worth another call with the same key. */
  predicate Transient(o: CallOutcome, chat: bool) {
    match o
    case TransportError(transient) => transient
    case Status(code, _, _) => EmptyChat(o, chat) || ClassifyStatus(code).NetworkTransient?
  }

  /** Transient, but not worth the wait when the nap before the next call is cut short: no response came,
      or an empty one. A transient status is retried all the same. */
  predicate Fragile(o: CallOutcome, chat: bool) {
    o.TransportError? || EmptyChat(o, chat)
  }

  /** Counting calls from c and naps from n, is call k followed by another one with the same key, if the
      budget allows? */
  predicate GoesOn(script: Script, chat: bool, c: nat, n: nat, k: nat) {
    Transient(script.call(c + k), chat) && (script.nap(n + k) || !Fragile(script.call(c + k), chat))
  }

  /** How many calls are made, the script and the budget being what they are. */
  function CallsMade(script: Script, chat: bool, c: nat, n: nat, k: nat, budget: nat): (m: nat)
    requires k < budget
    ensures 0 < m <= budget - k
    decreases budget - k
  {
    if k + 1 >= budget || !GoesOn(script, chat, c, n, k) then 1 else 1 + CallsMade(script, chat, c, n, k + 1, budget)
  }

  /** Every call but the last is followed by another; the last is not, or has used up the budget. */
  lemma {:induction false} CallsMadeMeans(script: Script, chat: bool, c: nat, n: nat, k: nat, budget: nat)
    requires k < budget
    ensures var m := CallsMade(script, chat, c, n, k, budget);
            && 0 < m <= budget - k
            && (forall i :: k <= i < k + m - 1 ==> GoesOn(script, chat, c, n, i))
            && (k + m < budget ==> !GoesOn(script, chat, c, n, k + m - 1))
    decreases budget - k
  {
    hide GoesOn;
    if k + 1 < budget && GoesOn(script, chat, c, n, k) {
      CallsMadeMeans(script, chat, c, n, k + 1, budget);
    }
  }

  lemma CallGoesOn(script: Script, chat: bool, c: nat, n: nat, k: nat, budget: nat)
    requires k + 1 < budget && Transient(script.call(c + k), chat) && (script.nap(n + k) || !Fragile(script.call(c + k), chat))
    ensures CallsMade(script, chat, c, n, k, budget) == 1 + CallsMade(script, chat, c, n, k + 1, budget)
  {
    hide Transient, Fragile;
  }

  lemma CallIsLast(script: Script, chat: bool, c: nat, n: nat, k: nat, budget: nat)
    requires k < budget
    requires k + 1 == budget || !Transient(script.call(c + k), chat) || (!script.nap(n + k) && Fragile(script.call(c + k), chat))
    ensures CallsMade(script, chat, c, n, k, budget) == 1
  {
    hide Transient, Fragile;
  }

  /** One nap before each further call, and one that ended the retries, if one did. */
  function NapsTaken(script: Script, chat: bool, c: nat, made: nat, budget: nat): nat
    requires made > 0
  {
    made - if made < budget && Transient(script.call(c + made - 1), chat) then 0 else 1
  }

  /** The key itself is at fault: move on to another one. */
  predicate KeyAtFault(o: CallOutcome) {
    o.Status? && (ClassifyStatus(o.code).KeyRateLimited? || ClassifyStatus(o.code).KeyAuthRejected?)
  }

  predicate Serves(o: CallOutcome, chat: bool) {
    o.Status? && ClassifyStatus(o.code).Terminal? && o.code < 400 && !EmptyChat(o, chat)
  }

  /** What one call does to health scores, breaker and scheduler. */
  function EffectsOf(key: string, o: CallOutcome, chat: bool): seq<Effect> {
    match o
    case TransportError(_) => [Recorded(key, false, 0)]
    case Status(code, _, _) =>
      if EmptyChat(o, chat) then [Recorded(key, false, code)]
      else
        match ClassifyStatus(code)
        case KeyRateLimited => [BreakerFailure(false), Recorded(key, false, code), Cooled(key), PairCooled(key)]
        case KeyAuthRejected => [Recorded(key, false, code), Died(key), Forgotten(key)]
        case NetworkTransient => [Recorded(key, false, code), BreakerFailure(true)]
        case Terminal => [Recorded(key, code < 400, code)]
  }

  /** The effects of calls i, ..., i + n - 1. */
  function EffectsOfCalls(key: string, call: nat -> CallOutcome, chat: bool, i: nat, n: nat): seq<Effect> {
    if n == 0 then [] else EffectsOfCalls(key, call, chat, i, n - 1) + EffectsOf(key, call(i + n - 1), chat)
  }

  lemma NoEffects(key: string, call: nat -> CallOutcome, chat: bool, i: nat)
    ensures EffectsOfCalls(key, call, chat, i, 0) == []
  {}

  lemma EffectsMore(before: seq<Effect>, key: string, call: nat -> CallOutcome, chat: bool, i: nat, n: nat)
    ensures before + EffectsOfCalls(key, call, chat, i, n) + EffectsOf(key, call(i + n), chat)
         == before + EffectsOfCalls(key, call, chat, i, n + 1)
  {
    hide EffectsOf;
  }

  // ---- acquiring and calling -------------------------------------------------------------------

  datatype Acquire = Got(key: string) | QueueTimeout | AcquireFailed

  datatype Attempt = Ready | SwitchKey | GaveUp

  /** The latest nap ended early. */
  predicate NapCut(nap: nat -> bool, naps: nat) {
    naps > 0 && !nap(naps - 1)
  }

  /** What executeUpstreamJSONRequest hands back: a response, possibly its own 502, or a switch of key. */
  datatype Reply = NextKey | Answer(code: int, emptyChat: bool, hasBody: bool)

  predicate FindsNothing(answer: PollOutcome) {
    answer.NoKey? || answer == Found("")
  }

  /** The queue polled from p0 to p1 and waited from w0 to w1. Every poll but the last found nothing and
      every wait but the last was a tick; the last poll decides, or else the last wait. */
  ghost predicate FromQueue(script: Script, r: Acquire, p0: nat, p1: nat, w0: nat, w1: nat, patience: nat) {
    && p0 < p1 && w0 <= w1 <= w0 + patience + 1
    && (forall i :: p0 <= i < p1 - 1 ==> FindsNothing(script.poll(i)))
    && (forall i :: w0 <= i < w1 - 1 ==> script.wait(i).Tick?)
    && var answer := script.poll(p1 - 1);
    && (r.Got? <==> answer.Found? && answer.key != "")
    && (r.Got? ==> r.key == answer.key)
    && (answer.PollFailed? ==> r.AcquireFailed?)
    && (FindsNothing(answer) ==> w0 < w1 && w1 - w0 == p1 - p0 - 1 && (r.AcquireFailed? <==> script.wait(w1 - 1).Cancelled?))
    && (r.QueueTimeout? ==> script.wait(w1 - 1).TimedOut? || w1 == w0 + patience + 1)
  }

  /** The last poll found nothing, and what ended the last wait was not a cancellation. */
  predicate GaveUpWaiting(script: Script, polls: nat, waits: nat) {
    polls > 0 && waits > 0 && FindsNothing(script.poll(polls - 1)) && !script.wait(waits - 1).Cancelled?
  }

  /** What asking for a lease comes to: the lease, and how often was polled and waited by then. */
  datatype Asked = Asked(lease: Acquire, polls: nat, waits: nat)

  /** Asking the queue: the first empty poll is followed by another at once, each later one by a wait. */
  function Queue(script: Script, p: nat, w: nat, left: nat, recovered: bool): Asked
    decreases left, !recovered, 1
  {
    match script.poll(p)
    case PollFailed => Asked(AcquireFailed, p + 1, w)
    case Found(key) =>
      if key != "" then Asked(Got(key), p + 1, w) else QueueOn(script, p, w, left, recovered)
    case NoKey => QueueOn(script, p, w, left, recovered)
  }

  /** After an empty poll. */
  function QueueOn(script: Script, p: nat, w: nat, left: nat, recovered: bool): Asked
    decreases left, !recovered, 0
  {
    if !recovered then Queue(script, p + 1, w, left, true)
    else
      match script.wait(w)
      case Cancelled => Asked(AcquireFailed, p + 1, w + 1)
      case TimedOut => Asked(QueueTimeout, p + 1, w + 1)
      case Tick => if left == 0 then Asked(QueueTimeout, p + 1, w + 1) else Queue(script, p + 1, w + 1, left - 1, true)
  }

  /** Asking for the conversation's key first. */
  function Ask(script: Script, a: nat, p: nat, w: nat, patience: nat): Asked {
    var preferred, answer := script.preferred(a), script.tryKey(a);
    if preferred.Some? && answer.TryFailed? then Asked(AcquireFailed, p, w)
    else if preferred.Some? && answer.Granted? then Asked(Got(preferred.value), p, w)
    else Queue(script, p, w, patience, false)
  }

  /** Everything the loops leave behind but their checks of the context. */
  datatype Cursor = Cursor(
    calls: nat,
    naps: nat,
    acquires: nat,
    polls: nat,
    waits: nat,
    ledger: seq<Lease>,
    effects: seq<Effect>)

  class World {
    const script: Script
    var calls: nat
    var naps: nat
    var acquires: nat
    var polls: nat
    var waits: nat
    var checks: nat
    var ledger: seq<Lease>
    var effects: seq<Effect>

    constructor (script: Script)
      ensures this.script == script && calls == 0 && ledger == [] && effects == []
    {
      this.script := script;
      calls, naps, acquires, polls, waits, checks := 0, 0, 0, 0, 0, 0;
      ledger, effects := [], [];
    }

    function Now(): Cursor
      reads this
    {
      Cursor(calls, naps, acquires, polls, waits, ledger, effects)
    }

    /** sleepWithContext: false when the context ends first. */
    method Nap() returns (slept: bool)
      modifies this`naps
      ensures slept == script.nap(old(naps)) && naps == old(naps) + 1
    {
      slept := script.nap(naps);
      naps := naps + 1;
    }

    /** ctx.Err. */
    method ContextEnded() returns (ended: bool)
      modifies this`checks
      ensures ended == script.contextEnded(old(checks)) && checks == old(checks) + 1
    {
      ended := script.contextEnded(checks);
      checks := checks + 1;
    }

    method Release(key: string)
      modifies this`ledger
      ensures ledger == old(ledger) + [Released(key)]
    {
      ledger := ledger + [Released(key)];
    }

    /** acquirePreferredKeyWithQueue: the conversation's key if it can be had, else the queue. */
    method AcquirePreferred(patience: nat) returns (r: Acquire)
      modifies this`acquires, this`polls, this`waits, this`ledger
      ensures acquires == old(acquires) + 1
      ensures Asked(r, polls, waits) == Ask(script, old(acquires), old(polls), old(waits), patience)
      ensures ledger == if r.Got? then old(ledger) + [Acquired(r.key)] else old(ledger)
      ensures var preferred, answer := script.preferred(old(acquires)), script.tryKey(old(acquires));
              if preferred.Some? && answer.Granted? then r == Got(preferred.value)
              else if preferred.Some? && answer.TryFailed? then r == AcquireFailed
              else FromQueue(script, r, old(polls), polls, old(waits), waits, patience)
      ensures r.QueueTimeout? ==> GaveUpWaiting(script, polls, waits)
    {
      var preferred := script.preferred(acquires);
      var answer := script.tryKey(acquires);
      acquires := acquires + 1;
      if preferred.Some? {
        if answer.TryFailed? {
          return AcquireFailed;
        }
        if answer.Granted? {
          ledger := ledger + [Acquired(preferred.value)];
          return Got(preferred.value);
        }
      }
      r := AcquireWithQueue(patience);
    }

    /** acquireKeyWithQueue; `patience` is how many ticks come before the timer fires. */
    method AcquireWithQueue(patience: nat) returns (r: Acquire)
      modifies this`polls, this`waits, this`ledger
      ensures ledger == if r.Got? then old(ledger) + [Acquired(r.key)] else old(ledger)
      ensures FromQueue(script, r, old(polls), polls, old(waits), waits, patience)
      ensures Asked(r, polls, waits) == Queue(script, old(polls), old(waits), patience, false)
    {
      var recoveryAttempted := false;
      var left := patience;
      while true
        invariant ledger == old(ledger)
        invariant forall i :: old(polls) <= i < polls ==> FindsNothing(script.poll(i))
        invariant forall i :: old(waits) <= i < waits ==> script.wait(i).Tick?
        invariant old(waits) <= waits && waits - old(waits) == patience - left
        invariant polls - old(polls) == if recoveryAttempted then waits - old(waits) + 1 else 0
        invariant !recoveryAttempted ==> waits == old(waits)
        invariant Queue(script, polls, waits, left, recoveryAttempted) == Queue(script, old(polls), old(waits), patience, false)
        decreases left, !recoveryAttempted
      {
        var answer := script.poll(polls);
        polls := polls + 1;
        if answer.PollFailed? {
          return AcquireFailed;
        }
        if answer.Found? && answer.key != "" {
          ledger := ledger + [Acquired(answer.key)];
          return Got(answer.key);
        }
        if !recoveryAttempted {
          recoveryAttempted := true;
          continue;
        }
        var event := script.wait(waits);
        waits := waits + 1;
        if event.Cancelled? {
          return AcquireFailed;
        }
        if event.TimedOut? || left == 0 {
          return QueueTimeout;
        }
        left := left - 1;
      }
    }

    /** openUpstreamStream: every call but the last was transient; the last decides. */
    method OpenStream(key: string, transportRetries: int) returns (r: Attempt)
      modifies this`calls, this`naps, this`effects
      ensures old(calls) < calls <= old(calls) + SameKeyBudget(transportRetries)
      ensures calls == old(calls) + CallsMade(script, false, old(calls), old(naps), 0, SameKeyBudget(transportRetries))
      ensures naps == old(naps) + NapsTaken(script, false, old(calls), calls - old(calls), SameKeyBudget(transportRetries))
      ensures forall i :: old(calls) <= i < calls - 1 ==> Transient(script.call(i), false)
      ensures effects == old(effects) + EffectsOfCalls(key, script.call, false, old(calls), calls - old(calls))
      ensures r.Ready? <==> Serves(script.call(calls - 1), false)
      ensures r.SwitchKey? <==>
                || KeyAtFault(script.call(calls - 1))
                || (Transient(script.call(calls - 1), false) && calls == old(calls) + SameKeyBudget(transportRetries))
      ensures calls < old(calls) + SameKeyBudget(transportRetries) && Transient(script.call(calls - 1), false) ==>
                script.call(calls - 1).TransportError? && NapCut(script.nap, naps)
    {
      hide EffectsOf, EffectsOfCalls, SameKeyBudget, CallsMade, GoesOn;
      NoEffects(key, script.call, false, calls);
      ghost var c0, n0 := calls, naps;
      var budget := SameKeyBudget(transportRetries);
      var attempt := 0;
      while attempt < budget
        invariant attempt <= budget && calls == old(calls) + attempt
        invariant forall i :: old(calls) <= i < calls ==> Transient(script.call(i), false)
        invariant effects == old(effects) + EffectsOfCalls(key, script.call, false, old(calls), attempt)
        invariant attempt < budget && naps == old(naps) + attempt
        invariant CallsMade(script, false, c0, n0, 0, budget)
               == attempt + CallsMade(script, false, c0, n0, attempt, budget)
      {
        var o := script.call(calls);
        calls := calls + 1;
        var more := EffectsOf(key, o, false);
        effects := effects + more;
        EffectsMore(old(effects), key, script.call, false, c0, attempt);
        assert o == script.call(c0 + attempt);
        if attempt + 1 == budget || !Transient(o, false) || (Fragile(o, false) && !script.nap(naps)) {
          CallIsLast(script, false, c0, n0, attempt, budget);
        } else {
          CallGoesOn(script, false, c0, n0, attempt, budget);
        }
        match o {
          case TransportError(transient) =>
            if !transient {
              return GaveUp;
            }
            if attempt + 1 >= budget {
              return SwitchKey;
            }
            var slept := Nap();
            if !slept {
              break;
            }
          case Status(code, _, _) =>
            match ClassifyStatus(code) {
              case KeyRateLimited => return SwitchKey;
              case KeyAuthRejected => return SwitchKey;
              case NetworkTransient =>
                if attempt + 1 >= budget {
                  return SwitchKey;
                }
                // Here a cut-short nap leaves the switch only, and the loop goes on.
                var _ := Nap();
              case Terminal =>
                return if code >= 400 then GaveUp else Ready;
            }
        }
        attempt := attempt + 1;
      }
      r := GaveUp;
    }

    /** executeUpstreamJSONRequest; `chat` says the path is chat/completions. */
    method CallJSON(key: string, transportRetries: int, chat: bool) returns (r: Reply)
      modifies this`calls, this`naps, this`effects
      ensures old(calls) < calls <= old(calls) + SameKeyBudget(transportRetries)
      ensures calls == old(calls) + CallsMade(script, chat, old(calls), old(naps), 0, SameKeyBudget(transportRetries))
      ensures naps == old(naps) + NapsTaken(script, chat, old(calls), calls - old(calls), SameKeyBudget(transportRetries))
      ensures forall i :: old(calls) <= i < calls - 1 ==> Transient(script.call(i), chat)
      ensures effects == old(effects) + EffectsOfCalls(key, script.call, chat, old(calls), calls - old(calls))
      ensures r.NextKey? <==>
                || KeyAtFault(script.call(calls - 1))
                || (Transient(script.call(calls - 1), chat) && calls == old(calls) + SameKeyBudget(transportRetries))
      ensures r.Answer? ==> r == ReplyTo(script.call(calls - 1), chat)
      ensures calls < old(calls) + SameKeyBudget(transportRetries) && Transient(script.call(calls - 1), chat) ==>
                NapCut(script.nap, naps) && (script.call(calls - 1).TransportError? || EmptyChat(script.call(calls - 1), chat))
    {
      hide EffectsOf, EffectsOfCalls, SameKeyBudget, CallsMade, GoesOn;
      NoEffects(key, script.call, chat, calls);
      ghost var c0, n0 := calls, naps;
      var budget := SameKeyBudget(transportRetries);
      var attempt := 0;
      while attempt < budget
        invariant attempt < budget && calls == old(calls) + attempt && naps == old(naps) + attempt
        invariant CallsMade(script, chat, c0, n0, 0, budget)
               == attempt + CallsMade(script, chat, c0, n0, attempt, budget)
        invariant forall i :: old(calls) <= i < calls ==> Transient(script.call(i), chat)
        invariant effects == old(effects) + EffectsOfCalls(key, script.call, chat, old(calls), attempt)
      {
        var o := script.call(calls);
        calls := calls + 1;
        var more := EffectsOf(key, o, chat);
        effects := effects + more;
        EffectsMore(old(effects), key, script.call, chat, c0, attempt);
        assert o == script.call(c0 + attempt);
        if attempt + 1 == budget || !Transient(o, chat) || (Fragile(o, chat) && !script.nap(naps)) {
          CallIsLast(script, chat, c0, n0, attempt, budget);
        } else {
          CallGoesOn(script, chat, c0, n0, attempt, budget);
        }
        if o.TransportError? || EmptyChat(o, chat) {
          if o.TransportError? && !o.transient {
            return Answer(502, false, true);
          }
          if attempt + 1 >= budget {
            return NextKey;
          }
          var slept := Nap();
          if !slept {
            break;
          }
        } else {
          match ClassifyStatus(o.code) {
            case KeyRateLimited => return NextKey;
            case KeyAuthRejected => return NextKey;
            case NetworkTransient =>
              if attempt + 1 >= budget {
                return NextKey;
              }
              // Here a cut-short nap leaves the switch only, and the loop goes on.
              var _ := Nap();
            case Terminal =>
              return Answer(o.code, o.emptyChat, o.hasBody);
          }
        }
        attempt := attempt + 1;
      }
      r := Answer(502, false, true);
    }
  }

  /** The response passed on, or the gateway's own 502 when the last call brought none. */
  function ReplyTo(o: CallOutcome, chat: bool): Reply {
    if o.TransportError? || EmptyChat(o, chat) then Answer(502, false, true) else Answer(o.code, o.emptyChat, o.hasBody)
  }

  lemma TransientDoesNotServe(o: CallOutcome, chat: bool)
    ensures !(Transient(o, chat) && Serves(o, chat))
  {}

  /** After a first transient outcome and a nap cut short, with budget left, the same key is called again
      exactly when a status was the outcome: a transport error or an empty completion ends the retries. */
  lemma CutNapDecides(script: Script, chat: bool, c: nat, n: nat, budget: nat)
    requires budget > 1 && Transient(script.call(c), chat) && !script.nap(n)
    ensures CallsMade(script, chat, c, n, 0, budget) > 1 <==> !Fragile(script.call(c), chat)
  {
    assert GoesOn(script, chat, c, n, 0) <==> !Fragile(script.call(c), chat);
  }

  /** So a cancelled request whose first answer was a 503 is sent once more, and may even be served. */
  lemma CalledAgainAfterCutNap(script: Script, chat: bool, c: nat, n: nat, budget: nat)
    requires budget > 1 && script.call(c) == Status(503, false, false) && !script.nap(n) && Serves(script.call(c + 1), chat)
    ensures CallsMade(script, chat, c, n, 0, budget) == 2
    ensures NapsTaken(script, chat, c, 2, budget) == 1
  {
    TransientDoesNotServe(script.call(c + 1), chat);
    CutNapDecides(script, chat, c, n, budget);
    assert !GoesOn(script, chat, c, n, 1);
  }
}
