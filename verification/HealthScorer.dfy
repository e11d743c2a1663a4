/** The health scorer's incremental state, and the history it stands for. */
module HealthScorer {
  import opened Optional
  import opened HealthScore

  datatype KeyHealth = KeyHealth(samples: seq<Sample>, consecutive5xx: nat, consecutiveLow: nat)

  const NEW_KEY := KeyHealth([], 0, 0)

  const WINDOW := 100
  const MIN_SAMPLES := 10

  /** Seconds. */
  const BASE_STEP_5XX := 15
  const MAX_COOLDOWN_5XX := 60
  const ESCALATION_START := 2
  const BASE_COOLDOWN := 60
  const MAX_COOLDOWN := 600

  type Keys = map<string, KeyHealth>

  // ---- one operation, as functions -------------------------------------------------------------

  function HealthOf(keys: Keys, key: string): KeyHealth {
    if key in keys then keys[key] else NEW_KEY
  }

  function LastWindow(xs: seq<Sample>): seq<Sample> {
    if |xs| > WINDOW then xs[|xs| - WINDOW..] else xs
  }

  function Observed(h: KeyHealth, s: Sample): KeyHealth {
    h.(samples := LastWindow(h.samples + [s]), consecutive5xx := if s.statusCode >= 500 then h.consecutive5xx + 1 else 0)
  }

  function Scored(h: KeyHealth): KeyHealth {
    if |h.samples| < MIN_SAMPLES then h
    else if Score(h.samples) < LOW_SCORE then h.(consecutiveLow := h.consecutiveLow + 1)
    else if Score(h.samples) >= HEALTHY_SCORE then h.(consecutiveLow := 0)
    else h
  }

  function RecordIn(keys: Keys, key: string, s: Sample): Keys {
    if key == "" then keys else keys[key := Observed(HealthOf(keys, key), s)]
  }

  function EvaluateIn(keys: Keys): Keys {
    map key | key in keys :: Scored(keys[key])
  }

  function ForgetIn(keys: Keys, key: string): Keys {
    keys - {key}
  }

  /** How long the nth server error in a row cools the pair; 0 for no cooling. */
  function PairCooldown(n: nat): nat {
    if n < ESCALATION_START then 0
    else if (n - 1) * BASE_STEP_5XX > MAX_COOLDOWN_5XX then MAX_COOLDOWN_5XX else (n - 1) * BASE_STEP_5XX
  }

  function Pow2(n: nat): nat {
    if n == 0 then 1 else 2 * Pow2(n - 1)
  }

  /** How long the nth low score since the last healthy one cools the key. */
  function KeyCooldown(n: nat): nat
    requires n > 0
  {
    if BASE_COOLDOWN * Pow2(n - 1) > MAX_COOLDOWN then MAX_COOLDOWN else BASE_COOLDOWN * Pow2(n - 1)
  }

  /** How long an evaluation cools a key, if it does. */
  function CoolPlan(h: KeyHealth): Option<nat> {
    if |h.samples| >= MIN_SAMPLES && Score(h.samples) < LOW_SCORE then Some(KeyCooldown(h.consecutiveLow + 1)) else None
  }

  /** The multiplier an evaluation writes for a key, if it does. */
  function WeightPlan(h: KeyHealth): Option<real> {
    if |h.samples| >= MIN_SAMPLES then Some(MultiplierFor(Score(h.samples))) else None
  }

  /** The keys one evaluation cools. */
  function CooledIn(keys: Keys): map<string, nat> {
    map key | key in keys && CoolPlan(keys[key]).Some? :: CoolPlan(keys[key]).value
  }

  /** The multipliers one evaluation writes. */
  function WeighedIn(keys: Keys): map<string, real> {
    map key | key in keys && WeightPlan(keys[key]).Some? :: WeightPlan(keys[key]).value
  }

  lemma {:induction false} Pow2Grows(m: nat, n: nat)
    requires m <= n
    ensures 1 <= Pow2(m) <= Pow2(n)
  {
    if m < n {
      Pow2Grows(m, n - 1);
    } else if n > 0 {
      Pow2Grows(m - 1, n - 1);
    }
  }

  // ---- the scorer itself -----------------------------------------------------------------------

  class Scorer {
    var keys: Keys

    constructor ()
      ensures keys == map[]
    {
      keys := map[];
    }

    /** record; returns for how many seconds the pair is to be cooled. */
    method Record(key: string, model: string, success: bool, statusCode: int, rtMs: int) returns (cool: nat)
      modifies this
      ensures keys == RecordIn(old(keys), key, Sample(success, statusCode, rtMs))
      ensures cool == if key == "" || model == "" then 0 else PairCooldown(keys[key].consecutive5xx)
    {
      hide LastWindow;
      if key == "" {
        return 0;
      }
      var state := HealthOf(keys, key);
      var samples := Trimmed(state.samples + [Sample(success, statusCode, rtMs)]);
      var duration := 0;
      var consecutive5xx := state.consecutive5xx;
      if statusCode >= 500 {
        consecutive5xx := consecutive5xx + 1;
        if consecutive5xx >= ESCALATION_START {
          var escalation := consecutive5xx - ESCALATION_START + 1;
          duration := escalation * BASE_STEP_5XX;
          if duration > MAX_COOLDOWN_5XX {
            duration := MAX_COOLDOWN_5XX;
          }
        }
      } else {
        consecutive5xx := 0;
      }
      keys := keys[key := KeyHealth(samples, consecutive5xx, state.consecutiveLow)];
      cool := if model != "" then duration else 0;
    }

    method Trimmed(samples: seq<Sample>) returns (kept: seq<Sample>)
      ensures kept == LastWindow(samples)
    {
      kept := samples;
      if |samples| > WINDOW {
        kept := samples[|samples| - WINDOW..];
      }
    }

    /** The doubling loop of evaluateScores. */
    method Doubled(consecutiveLow: nat) returns (duration: nat)
      requires consecutiveLow > 0
      ensures duration == KeyCooldown(consecutiveLow)
    {
      duration := BASE_COOLDOWN;
      for i := 1 to consecutiveLow
        invariant duration == BASE_COOLDOWN * Pow2(i - 1) < MAX_COOLDOWN
      {
        duration := duration * 2;
        if duration >= MAX_COOLDOWN {
          Pow2Grows(i, consecutiveLow - 1);
          duration := MAX_COOLDOWN;
          break;
        }
      }
    }

    /** One key's turn in evaluateScores. */
    method EvaluateOne(h: KeyHealth) returns (after: KeyHealth, cool: Option<nat>, weigh: Option<real>)
      ensures after == Scored(h) && cool == CoolPlan(h) && weigh == WeightPlan(h)
    {
      hide Score, MultiplierFor, KeyCooldown;
      if |h.samples| < MIN_SAMPLES {
        return h, None, None;
      }
      var score := ComputeHealthScore(h.samples);
      after, cool, weigh := h, None, Some(MultiplierFor(score));
      if score < LOW_SCORE {
        after := h.(consecutiveLow := h.consecutiveLow + 1);
        var duration := Doubled(after.consecutiveLow);
        cool := Some(duration);
      } else if score >= HEALTHY_SCORE {
        after := h.(consecutiveLow := 0);
      }
    }

    /** evaluateScores; the keys are taken in any order. */
    method EvaluateScores() returns (cooled: map<string, nat>, weighed: map<string, real>)
      modifies this
      ensures keys == EvaluateIn(old(keys)) && cooled == CooledIn(old(keys)) && weighed == WeighedIn(old(keys))
    {
      hide Scored, CoolPlan, WeightPlan;
      cooled, weighed := map[], map[];
      var before := keys;
      var todo := keys.Keys;
      while todo != {}
        invariant todo <= before.Keys && keys.Keys == before.Keys
        invariant forall k :: k in before ==> keys[k] == if k in todo then before[k] else Scored(before[k])
        invariant forall k :: k in cooled <==> k in before && k !in todo && CoolPlan(before[k]).Some?
        invariant forall k :: k in cooled ==> cooled[k] == CoolPlan(before[k]).value
        invariant forall k :: k in weighed <==> k in before && k !in todo && WeightPlan(before[k]).Some?
        invariant forall k :: k in weighed ==> weighed[k] == WeightPlan(before[k]).value
        decreases todo
      {
        var key :| key in todo;
        todo := todo - {key};
        var state, cool, weigh := EvaluateOne(keys[key]);
        if weigh.Some? {
          weighed := weighed[key := weigh.value];
        }
        if cool.Some? {
          cooled := cooled[key := cool.value];
        }
        keys := keys[key := state];
      }
    }

    /** reset. */
    method Forget(key: string)
      modifies this
      ensures keys == if key == "" then old(keys) else ForgetIn(old(keys), key)
    {
      if key == "" {
        return;
      }
      keys := keys - {key};
    }
  }

  // ---- histories -------------------------------------------------------------------------------

  datatype Event = Recorded(key: string, model: string, sample: Sample) | Evaluated | Forgotten(key: string)

  function Apply(keys: Keys, e: Event): Keys {
    match e
    case Recorded(key, _, s) => RecordIn(keys, key, s)
    case Evaluated => EvaluateIn(keys)
    case Forgotten(key) => if key == "" then keys else ForgetIn(keys, key)
  }

  function Run(events: seq<Event>, n: nat): Keys
    requires n <= |events|
  {
    if n == 0 then map[] else Apply(Run(events, n - 1), events[n - 1])
  }

  /** Every record of the key since it was last forgotten. */
  function Records(events: seq<Event>, n: nat, key: string): seq<Sample>
    requires n <= |events|
  {
    if n == 0 then []
    else
      match events[n - 1]
      case Recorded(k, _, s) => Records(events, n - 1, key) + if k == key then [s] else []
      case Evaluated => Records(events, n - 1, key)
      case Forgotten(k) => if k == key then [] else Records(events, n - 1, key)
  }

  /** The length of the run of server errors that ends the list. */
  function TrailingErrors(xs: seq<Sample>): (k: nat)
    ensures k <= |xs|
    ensures forall i :: |xs| - k <= i < |xs| ==> xs[i].statusCode >= 500
    ensures k < |xs| ==> xs[|xs| - k - 1].statusCode < 500
  {
    if xs == [] || xs[|xs| - 1].statusCode < 500 then 0 else 1 + TrailingErrors(xs[..|xs| - 1])
  }

  /** The scores the key has been given since it was last forgotten. */
  function Scores(events: seq<Event>, n: nat, key: string): seq<real>
    requires n <= |events|
  {
    if n == 0 then []
    else
      var before := Scores(events, n - 1, key);
      match events[n - 1]
      case Recorded(_, _, _) => before
      case Evaluated =>
        var all := Records(events, n - 1, key);
        if |all| < 10 then before else before + [Score(all[if |all| > 100 then |all| - 100 else 0..])]
      case Forgotten(k) => if k == key then [] else before
  }

  /** Scores below the low mark after the last healthy one. */
  function LowsSinceHealthy(scores: seq<real>): nat {
    if scores == [] || scores[|scores| - 1] >= 60.0 then 0
    else LowsSinceHealthy(scores[..|scores| - 1]) + if scores[|scores| - 1] < 40.0 then 1 else 0
  }

  function Summed(events: seq<Event>, n: nat, key: string): KeyHealth
    requires n <= |events|
  {
    KeyHealth(LastWindow(Records(events, n, key)), TrailingErrors(Records(events, n, key)),
              LowsSinceHealthy(Scores(events, n, key)))
  }

  /** The window holds the newest hundred records, or all of them. */
  lemma WindowIs(xs: seq<Sample>)
    ensures LastWindow(xs) == xs[if |xs| > 100 then |xs| - 100 else 0..]
    ensures |LastWindow(xs)| == if |xs| > 100 then 100 else |xs|
  {}

  lemma WindowMore(xs: seq<Sample>, s: Sample)
    ensures LastWindow(LastWindow(xs) + [s]) == LastWindow(xs + [s])
  {}

  lemma ErrorsMore(xs: seq<Sample>, s: Sample)
    ensures TrailingErrors(xs + [s]) == if s.statusCode >= 500 then TrailingErrors(xs) + 1 else 0
  {}

  lemma LowsMore(scores: seq<real>, x: real)
    ensures LowsSinceHealthy(scores + [x])
         == if x >= 60.0 then 0 else LowsSinceHealthy(scores) + if x < 40.0 then 1 else 0
  {}

  lemma SummedRecord(events: seq<Event>, n: nat, key: string)
    requires 0 < n <= |events| && events[n - 1].Recorded?
    ensures Summed(events, n, key)
         == if events[n - 1].key == key then Observed(Summed(events, n - 1, key), events[n - 1].sample)
            else Summed(events, n - 1, key)
  {
    var s := events[n - 1].sample;
    WindowMore(Records(events, n - 1, key), s);
    ErrorsMore(Records(events, n - 1, key), s);
    assert Records(events, n - 1, key) + [] == Records(events, n - 1, key);
    hide LastWindow, TrailingErrors, LowsSinceHealthy;
  }

  lemma SummedScore(events: seq<Event>, n: nat, key: string)
    requires 0 < n <= |events| && events[n - 1].Evaluated?
    ensures Summed(events, n, key) == Scored(Summed(events, n - 1, key))
  {
    hide LastWindow, TrailingErrors, LowsSinceHealthy, Score;
    WindowIs(Records(events, n - 1, key));
    LowsMore(Scores(events, n - 1, key), Score(LastWindow(Records(events, n - 1, key))));
  }

  lemma {:induction false} StateIsSummed(events: seq<Event>, n: nat, key: string)
    requires n <= |events| && key != ""
    ensures HealthOf(Run(events, n), key) == Summed(events, n, key)
    ensures key in Run(events, n) <==> Records(events, n, key) != []
  {
    if n == 0 {
      EmptySum();
    } else {
      StateIsSummed(events, n - 1, key);
      HealthAfter(Run(events, n - 1), events[n - 1], key);
      match events[n - 1] {
        case Recorded(_, _, _) => SummedRecord(events, n, key);
        case Evaluated =>
          SummedScore(events, n, key);
          ScoredEmpty();
        case Forgotten(_) => EmptySum();
      }
      hide Apply, Observed, Scored, LastWindow, TrailingErrors, LowsSinceHealthy;
    }
  }

  /** The incremental state is the summary of the key's history since it was last forgotten: the last
      hundred records, or all of them if there are fewer, in order; the length of the trailing run of
      server errors; and the low scores since the last healthy one. */
  lemma StateIsHistory(events: seq<Event>, n: nat, key: string)
    requires n <= |events| && key != ""
    ensures var h, all := HealthOf(Run(events, n), key), Records(events, n, key);
            && |h.samples| == (if |all| < 100 then |all| else 100) && h.samples == all[|all| - |h.samples|..]
            && h.consecutive5xx == TrailingErrors(all)
            && h.consecutiveLow == LowsSinceHealthy(Scores(events, n, key))
    ensures key in Run(events, n) <==> Records(events, n, key) != []
  {
    hide *;
    StateIsSummed(events, n, key);
    SummedIs(events, n, key);
  }

  lemma SummedIs(events: seq<Event>, n: nat, key: string)
    requires n <= |events|
    ensures var h, all := Summed(events, n, key), Records(events, n, key);
            && |h.samples| == (if |all| < 100 then |all| else 100) && h.samples == all[|all| - |h.samples|..]
            && h.consecutive5xx == TrailingErrors(all)
            && h.consecutiveLow == LowsSinceHealthy(Scores(events, n, key))
  {
    hide Records, TrailingErrors, Scores, LastWindow, LowsSinceHealthy;
    WindowIs(Records(events, n, key));
  }

  lemma HealthAfter(keys: Keys, e: Event, key: string)
    requires key != ""
    ensures HealthOf(Apply(keys, e), key) ==
            match e
            case Recorded(k, _, s) => if k == key then Observed(HealthOf(keys, key), s) else HealthOf(keys, key)
            case Evaluated => Scored(HealthOf(keys, key))
            case Forgotten(k) => if k == key then NEW_KEY else HealthOf(keys, key)
    ensures key in Apply(keys, e) <==> (key in keys && e != Forgotten(key)) || (e.Recorded? && e.key == key)
  {
    ScoredEmpty();
    hide Observed, Scored;
  }

  lemma ScoredEmpty()
    ensures Scored(NEW_KEY) == NEW_KEY
  {}

  lemma EmptySum()
    ensures LastWindow([]) == [] && TrailingErrors([]) == 0 && LowsSinceHealthy([]) == 0
  {}

  /** The cooldown a record asks for is a function of the history alone: nothing before the second
      server error in a row, then 15 seconds more for each one, up to 60. */
  lemma CooldownFromHistory(events: seq<Event>, n: nat)
    requires n < |events| && events[n].Recorded? && events[n].key != ""
    ensures var k := TrailingErrors(Records(events, n + 1, events[n].key));
            var cool := PairCooldown(Run(events, n + 1)[events[n].key].consecutive5xx);
            cool == if k < 2 then 0 else if 15 * (k - 1) < 60 then 15 * (k - 1) else 60
  {
    StateIsHistory(events, n + 1, events[n].key);
    assert Records(events, n + 1, events[n].key) != [];
    hide Run, Records, TrailingErrors, Scores, LastWindow;
  }

  /** What an evaluation does to a key follows from the history alone: with at least ten records in the
      last hundred it writes the score's multiplier, and it cools the key exactly when the score is low, for
      a minute doubled with each further low score since the last healthy one, up to ten minutes. */
  lemma EvaluationFromHistory(events: seq<Event>, n: nat, key: string)
    requires n <= |events| && key != ""
    ensures var all := Records(events, n, key);
            var window := all[if |all| > 100 then |all| - 100 else 0..];
            var lows := LowsSinceHealthy(Scores(events, n, key));
            && (key in WeighedIn(Run(events, n)) <==> |all| >= 10)
            && (|all| >= 10 ==> WeighedIn(Run(events, n))[key] == 0.5 + Score(window) * 0.015)
            && (key in CooledIn(Run(events, n)) <==> |all| >= 10 && Score(window) < 40.0)
            && (key in CooledIn(Run(events, n)) ==>
                  CooledIn(Run(events, n))[key] == if 60 * Pow2(lows) < 600 then 60 * Pow2(lows) else 600)
  {
    hide Run, Records, TrailingErrors, Scores, LastWindow, LowsSinceHealthy, Score, KeyCooldown, CooledIn, WeighedIn;
    StateIsSummed(events, n, key);
    EmptySum();
    WindowIs(Records(events, n, key));
    PlansFor(Run(events, n), key);
    CooldownOf(LowsSinceHealthy(Scores(events, n, key)));
  }

  lemma CooldownOf(lows: nat)
    ensures KeyCooldown(lows + 1) == if 60 * Pow2(lows) < 600 then 60 * Pow2(lows) else 600
  {}

  lemma PlansFor(keys: Keys, key: string)
    ensures var h := HealthOf(keys, key);
            && (key in WeighedIn(keys) <==> |h.samples| >= MIN_SAMPLES)
            && (key in WeighedIn(keys) ==> WeighedIn(keys)[key] == MultiplierFor(Score(h.samples)))
            && (key in CooledIn(keys) <==> |h.samples| >= MIN_SAMPLES && Score(h.samples) < LOW_SCORE)
            && (key in CooledIn(keys) ==> CooledIn(keys)[key] == KeyCooldown(h.consecutiveLow + 1))
  {
    hide Score, MultiplierFor, KeyCooldown;
  }
}
