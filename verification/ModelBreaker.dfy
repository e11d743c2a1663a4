/** The per-model circuit breaker: failure times filtered in place, and the history they stand for. */
module ModelBreaker {
  import opened Products
  import opened Text

  // ---- filtering a slice in place --------------------------------------------------------------

  /** The times after the cutoff, in order. */
  function Within(times: seq<int>, cutoff: int): seq<int> {
    if times == [] then []
    else
      var before := Within(times[..|times| - 1], cutoff);
      if times[|times| - 1] > cutoff then before + [times[|times| - 1]] else before
  }

  lemma {:induction false} WithinShrinks(times: seq<int>, cutoff: int)
    ensures |Within(times, cutoff)| <= |times|
  {
    if times != [] {
      WithinShrinks(times[..|times| - 1], cutoff);
    }
  }

  lemma WithinMore(times: seq<int>, t: int, cutoff: int)
    ensures Within(times + [t], cutoff) == if t > cutoff then Within(times, cutoff) + [t] else Within(times, cutoff)
  {}

  lemma WithinNothing(cutoff: int)
    ensures Within([], cutoff) == []
  {}

  /** A Go slice of times: a backing array and how much of it is in use. */
  datatype Slice = Slice(items: array<int>, len: nat)

  ghost predicate Fits(s: Slice) {
    s.len <= s.items.Length
  }

  /** The loop of appendRecentWithin, over the same backing array. */
  method KeepRecent(items: array<int>, n: nat, cutoff: int) returns (k: nat)
    requires n <= items.Length
    modifies items
    ensures k <= n && items[..k] == Within(old(items[..n]), cutoff)
  {
    hide Within;
    WithinNothing(cutoff);
    k := 0;
    ghost var before := items[..n];
    for i := 0 to n
      invariant k <= i && items[..k] == Within(before[..i], cutoff)
      invariant items[i..n] == before[i..]
    {
      var t := items[i];
      assert t == before[i];
      assert before[..i + 1] == before[..i] + [t];
      WithinMore(before[..i], t, cutoff);
      assert items[i + 1..n] == before[i + 1..];
      if t > cutoff {
        items[k] := t;
        k := k + 1;
        assert items[..k] == items[..k - 1] + [t];
      }
    }
    assert before[..n] == before;
  }

  method AppendRecentWithin(s: Slice, now: int, window: int) returns (kept: Slice)
    requires Fits(s)
    modifies s.items
    ensures Fits(kept) && kept.items[..kept.len] == Within(old(s.items[..s.len]), now - window) + [now]
    ensures kept.items == s.items || fresh(kept.items)
  {
    var k := KeepRecent(s.items, s.len, now - window);
    ghost var recent := s.items[..k];
    if k < s.items.Length {
      s.items[k] := now;
      kept := Slice(s.items, k + 1);
      assert s.items[..k] == recent;
    } else {
      var grown := new int[2 * k + 1];
      for i := 0 to k
        invariant s.items[..k] == recent && grown[..i] == recent[..i]
      {
        grown[i] := s.items[i];
      }
      grown[k] := now;
      kept := Slice(grown, k + 1);
      assert grown[..k] == recent;
    }
    assert kept.items[..k + 1] == kept.items[..k] + [now];
  }

  // ---- one failure class, as values ------------------------------------------------------------

  /** Failure times and open-until times of one class, per model. */
  datatype Table = Table(recent: map<string, seq<int>>, openUntil: map<string, int>)

  const EMPTY := Table(map[], map[])

  function RecentOf(t: Table, model: string): seq<int> {
    if model in t.recent then t.recent[model] else []
  }

  function FailIn(t: Table, model: string, now: int, threshold: int, window: int, cooldown: int): Table {
    var kept := Within(RecentOf(t, model), now - window) + [now];
    if |kept| >= threshold then Table(t.recent[model := []], t.openUntil[model := now + cooldown])
    else t.(recent := t.recent[model := kept])
  }

  predicate OpenIn(t: Table, model: string, now: int) {
    model in t.openUntil && now < t.openUntil[model]
  }

  // ---- the breaker itself ----------------------------------------------------------------------

  /** One class's maps, as the breaker holds them; `times` is what the slices hold. */
  class ClassTable {
    var recent: map<string, Slice>
    var openUntil: map<string, int>
    ghost var times: map<string, seq<int>>

    ghost predicate Holds(m: string)
      requires m in recent
      reads this, recent[m].items
    {
      m in times && recent[m].len <= recent[m].items.Length && recent[m].items[..recent[m].len] == times[m]
    }

    /** No other model uses this array. */
    ghost predicate OwnedBy(items: array<int>, model: string)
      reads this
    {
      forall m :: m in recent && m != model ==> recent[m].items != items
    }

    ghost predicate ValidBut(model: string)
      reads this, Arrays()
    {
      && times.Keys == recent.Keys
      && (forall m :: m in recent && m != model ==> Holds(m))
      && forall m :: m in recent ==> OwnedBy(recent[m].items, m)
    }

    /** Each model has a backing array of its own, holding its times. */
    ghost predicate Valid()
      reads this, Arrays()
    {
      && times.Keys == recent.Keys
      && (forall m :: m in recent ==> Holds(m))
      && forall m :: m in recent ==> OwnedBy(recent[m].items, m)
    }

    ghost function Arrays(): set<object>
      reads this
    {
      set m | m in recent :: recent[m].items
    }

    ghost function Now(): Table
      reads this
    {
      Table(times, openUntil)
    }

    constructor ()
      ensures Valid() && Now() == EMPTY && recent == map[]
    {
      recent, openUntil, times := map[], map[], map[];
    }

    /** Filters the model's slice and appends to it; the maps are as before. */
    method Filtered(model: string, now: int, window: int) returns (kept: Slice)
      requires Valid()
      modifies Arrays()
      ensures ValidBut(model) && Fits(kept) && OwnedBy(kept.items, model)
      ensures kept.items[..kept.len] == Within(RecentOf(Now(), model), now - window) + [now]
      ensures kept.items in Arrays() || fresh(kept.items)
    {
      hide Within;
      var s: Slice;
      if model in recent {
        s := recent[model];
        assert Holds(model);
      } else {
        var none := new int[0];
        s := Slice(none, 0);
      }
      kept := AppendRecentWithin(s, now, window);
    }

    method Put(model: string, s: Slice)
      requires ValidBut(model) && Fits(s) && OwnedBy(s.items, model)
      modifies this`recent, this`times
      ensures Valid() && times == old(times)[model := s.items[..s.len]]
      ensures Arrays() <= old(Arrays()) + {s.items}
    {
      recent := recent[model := s];
      times := times[model := s.items[..s.len]];
    }

    /** Opens the breaker for the model and forgets its failures. */
    method Trip(model: string, until: int)
      requires ValidBut(model)
      modifies this
      ensures Valid() && times == old(times)[model := []] && openUntil == old(openUntil)[model := until]
      ensures fresh(Arrays() - old(Arrays()))
    {
      var none := new int[0];
      recent := recent[model := Slice(none, 0)];
      times := times[model := []];
      openUntil := openUntil[model := until];
    }

    /** The body of recordFailure for one class. */
    method Fail(model: string, now: int, threshold: int, window: int, cooldown: int)
      requires Valid()
      modifies this, Arrays()
      ensures Valid() && Now() == FailIn(old(Now()), model, now, threshold, window, cooldown)
      ensures fresh(Arrays() - old(Arrays()))
    {
      hide Within, Valid, ValidBut;
      var kept := Filtered(model, now, window);
      if kept.len >= threshold {
        Trip(model, now + cooldown);
      } else {
        Put(model, kept);
      }
    }
  }

  datatype Breaker = Breaker(limited: Table, failing: Table)

  datatype Config = Config(threshold: int, window: int, cooldown: int)

  const DEFAULT_WINDOW := 30
  const DEFAULT_COOLDOWN := 15

  /** The settings the breaker is built with: only the threshold may be zero or less. */
  function Settings(threshold: int, window: int, cooldown: int): (c: Config)
    ensures c.threshold == threshold && c.window > 0 && c.cooldown > 0
    ensures c.window == (if window > 0 then window else 30) && c.cooldown == (if cooldown > 0 then cooldown else 15)
  {
    Config(threshold, if window <= 0 then DEFAULT_WINDOW else window, if cooldown <= 0 then DEFAULT_COOLDOWN else cooldown)
  }

  function RecordIn(b: Breaker, model: string, is5xx: bool, now: int, c: Config): Breaker {
    var m := TrimSpace(model);
    if c.threshold <= 0 || m == "" then b
    else if is5xx then b.(failing := FailIn(b.failing, m, now, c.threshold, c.window, c.cooldown))
    else b.(limited := FailIn(b.limited, m, now, c.threshold, c.window, c.cooldown))
  }

  predicate IsOpenIn(b: Breaker, model: string, now: int, c: Config) {
    var m := TrimSpace(model);
    c.threshold > 0 && m != "" && (OpenIn(b.limited, m, now) || OpenIn(b.failing, m, now))
  }

  class ModelCircuitBreaker {
    const config: Config
    const limited: ClassTable
    const failing: ClassTable

    ghost predicate Valid()
      reads this, limited, failing, limited.Arrays(), failing.Arrays()
    {
      limited != failing && limited.Valid() && failing.Valid() && limited.Arrays() !! failing.Arrays()
      && limited !in failing.Arrays() && failing !in limited.Arrays()
    }

    ghost function Now(): Breaker
      reads limited, failing
    {
      Breaker(limited.Now(), failing.Now())
    }

    constructor (config: Config)
      ensures Valid() && Now() == Breaker(EMPTY, EMPTY) && this.config == config
    {
      this.config := config;
      limited := new ClassTable();
      failing := new ClassTable();
    }

    method RecordFailure(model: string, is5xx: bool, now: int)
      requires Valid()
      modifies limited, failing, limited.Arrays(), failing.Arrays()
      ensures Valid() && Now() == RecordIn(old(Now()), model, is5xx, now, config)
    {
      hide FailIn, TrimSpace;
      if config.threshold <= 0 {
        return;
      }
      var m := TrimSpace(model);
      if m == "" {
        return;
      }
      if is5xx {
        failing.Fail(m, now, config.threshold, config.window, config.cooldown);
      } else {
        limited.Fail(m, now, config.threshold, config.window, config.cooldown);
      }
    }

    method IsOpen(model: string, now: int) returns (open: bool)
      ensures open <==> IsOpenIn(Now(), model, now, config)
    {
      hide TrimSpace;
      if config.threshold <= 0 {
        return false;
      }
      var m := TrimSpace(model);
      if m == "" {
        return false;
      }
      if m in limited.openUntil && now < limited.openUntil[m] {
        return true;
      }
      open := m in failing.openUntil && now < failing.openUntil[m];
    }
  }

  // ---- histories -------------------------------------------------------------------------------

  datatype Failure = Failure(model: string, is5xx: bool, now: int)

  function Run(fs: seq<Failure>, n: nat, c: Config): Breaker
    requires n <= |fs|
  {
    if n == 0 then Breaker(EMPTY, EMPTY) else RecordIn(Run(fs, n - 1, c), fs[n - 1].model, fs[n - 1].is5xx, fs[n - 1].now, c)
  }

  function TableOf(b: Breaker, is5xx: bool): Table {
    if is5xx then b.failing else b.limited
  }

  predicate Monotone(fs: seq<Failure>) {
    forall i, j :: 0 <= i < j < |fs| ==> fs[i].now <= fs[j].now
  }

  /** Does this failure concern the model, trimmed, and the class? */
  predicate About(f: Failure, model: string, is5xx: bool) {
    TrimSpace(f.model) == model && f.is5xx == is5xx
  }

  /** A summary of the first n failures of one model and class, in terms of whole histories: the times
      of all failures since the last trip, how many there were in all, and when the trips were. */
  datatype History = History(sinceTrip: seq<int>, failures: nat, trips: seq<int>)

  /** A trip is a failure that makes the count inside the window reach the threshold. */
  function Extended(h: History, now: int, c: Config): History {
    var all := h.sinceTrip + [now];
    if |Within(all, now - c.window)| >= c.threshold then History([], h.failures + 1, h.trips + [now])
    else h.(sinceTrip := all, failures := h.failures + 1)
  }

  function HistoryOf(fs: seq<Failure>, n: nat, model: string, is5xx: bool, c: Config): History
    requires n <= |fs|
  {
    if n == 0 then History([], 0, [])
    else
      var before := HistoryOf(fs, n - 1, model, is5xx, c);
      if About(fs[n - 1], model, is5xx) then Extended(before, fs[n - 1].now, c) else before
  }

  /** The window ends at the latest of the times. */
  function InWindow(times: seq<int>, window: int): seq<int> {
    if times == [] then [] else Within(times, times[|times| - 1] - window)
  }

  lemma {:induction false} WithinTwice(times: seq<int>, early: int, late: int)
    requires early <= late
    ensures Within(Within(times, early), late) == Within(times, late)
  {
    if times != [] {
      var front, t := times[..|times| - 1], times[|times| - 1];
      WithinTwice(front, early, late);
      if t > early {
        WithinMore(Within(front, early), t, late);
      }
    }
  }

  /** What one model's table says is what its history says. */
  ghost predicate Agrees(t: Table, h: History, model: string, c: Config) {
    && RecentOf(t, model) == InWindow(h.sinceTrip, c.window)
    && (model in t.openUntil <==> h.trips != [])
    && (h.trips != [] ==> t.openUntil[model] == h.trips[|h.trips| - 1] + c.cooldown)
  }

  /** Filtering what was kept is filtering everything, provided the clock did not go back. */
  lemma KeptIsAll(times: seq<int>, now: int, window: int)
    requires window > 0 && (times != [] ==> times[|times| - 1] <= now)
    ensures Within(InWindow(times, window), now - window) + [now] == Within(times + [now], now - window)
  {
    if times != [] {
      WithinTwice(times, times[|times| - 1] - window, now - window);
    }
    WithinMore(times, now, now - window);
    hide Within;
  }

  predicate NotAfter(times: seq<int>, now: int) {
    forall i :: 0 <= i < |times| ==> times[i] <= now
  }

  lemma EmptyWindow(window: int)
    ensures InWindow([], window) == []
  {}

  lemma AgreesStep(t: Table, h: History, model: string, now: int, c: Config)
    requires Agrees(t, h, model, c) && c.window > 0
    requires NotAfter(h.sinceTrip, now)
    ensures Agrees(FailIn(t, model, now, c.threshold, c.window, c.cooldown), Extended(h, now, c), model, c)
  {
    var all := h.sinceTrip + [now];
    KeptIsAll(h.sinceTrip, now, c.window);
    hide Within;
    assert all[|all| - 1] == now;
    assert InWindow(all, c.window) == Within(all, now - c.window);
    hide InWindow;
    if |Within(all, now - c.window)| >= c.threshold {
      assert InWindow([], c.window) == [] by { EmptyWindow(c.window); }
      var trips := h.trips + [now];
      assert trips[|trips| - 1] == now && trips != [];
    } else {
      assert all != [];
    }
  }

  lemma OthersAgree(t: Table, h: History, model: string, other: string, now: int, c: Config)
    requires Agrees(t, h, model, c) && other != model
    ensures Agrees(FailIn(t, other, now, c.threshold, c.window, c.cooldown), h, model, c)
  {}

  lemma {:induction false} SinceTripIsPast(fs: seq<Failure>, n: nat, model: string, is5xx: bool, c: Config, t: int)
    requires n <= |fs| && forall i :: 0 <= i < n ==> fs[i].now <= t
    ensures NotAfter(HistoryOf(fs, n, model, is5xx, c).sinceTrip, t)
  {
    hide About, Extended, NotAfter;
    if n == 0 {
      NothingIsPast(t);
    } else {
      SinceTripIsPast(fs, n - 1, model, is5xx, c, t);
      ExtendedIsPast(HistoryOf(fs, n - 1, model, is5xx, c), fs[n - 1].now, c, t);
    }
  }

  lemma NothingIsPast(t: int)
    ensures NotAfter([], t)
  {}

  lemma ExtendedIsPast(h: History, now: int, c: Config, t: int)
    requires NotAfter(h.sinceTrip, t) && now <= t
    ensures NotAfter(Extended(h, now, c).sinceTrip, t)
  {}

  /** While the clock does not go back, the filtered list is, in order, the failures of that model and
      class since its last trip that lie inside the window at the latest of them; and the open-until
      time is the latest trip plus the cooldown. So a call trips exactly when the count over the whole
      history reaches the threshold. */
  lemma {:induction false} TablesMatchHistory(fs: seq<Failure>, n: nat, model: string, is5xx: bool, c: Config)
    requires n <= |fs| && Monotone(fs) && c.threshold > 0 && c.window > 0 && model != ""
    ensures Agrees(TableOf(Run(fs, n, c), is5xx), HistoryOf(fs, n, model, is5xx, c), model, c)
  {
    hide TableOf, RecordIn, Agrees, Extended, About, NotAfter, TrimSpace;
    if n == 0 {
      EmptyAgrees(model, is5xx, c);
    } else {
      TablesMatchHistory(fs, n - 1, model, is5xx, c);
      PastAt(fs, n, model, is5xx, c);
      RecordAgrees(Run(fs, n - 1, c), HistoryOf(fs, n - 1, model, is5xx, c), fs[n - 1], model, is5xx, c);
    }
  }

  lemma PastAt(fs: seq<Failure>, n: nat, model: string, is5xx: bool, c: Config)
    requires 0 < n <= |fs| && Monotone(fs)
    ensures NotAfter(HistoryOf(fs, n - 1, model, is5xx, c).sinceTrip, fs[n - 1].now)
  {
    hide HistoryOf, NotAfter;
    SinceTripIsPast(fs, n - 1, model, is5xx, c, fs[n - 1].now);
  }

  lemma EmptyAgrees(model: string, is5xx: bool, c: Config)
    ensures Agrees(TableOf(Breaker(EMPTY, EMPTY), is5xx), History([], 0, []), model, c)
  {}

  lemma RecordAgrees(b: Breaker, h: History, f: Failure, model: string, is5xx: bool, c: Config)
    requires Agrees(TableOf(b, is5xx), h, model, c) && NotAfter(h.sinceTrip, f.now) && c.threshold > 0 && c.window > 0 && model != ""
    ensures Agrees(TableOf(RecordIn(b, f.model, f.is5xx, f.now, c), is5xx),
                   if About(f, model, is5xx) then Extended(h, f.now, c) else h, model, c)
  {
    var m := TrimSpace(f.model);
    hide TrimSpace, Agrees, FailIn, Extended, NotAfter;
    if m == model && f.is5xx == is5xx {
      AgreesStep(TableOf(b, is5xx), h, model, f.now, c);
    } else if m != "" && f.is5xx == is5xx {
      OthersAgree(TableOf(b, is5xx), h, model, m, f.now, c);
    }
  }

  /** A model is shut out exactly while the latest trip of either class is inside its cooldown. */
  lemma OpenIffTripped(fs: seq<Failure>, n: nat, model: string, now: int, c: Config)
    requires n <= |fs| && Monotone(fs) && c.threshold > 0 && c.window > 0 && IsTrimmed(model) && model != ""
    ensures IsOpenIn(Run(fs, n, c), model, now, c) <==>
              InCooldown(HistoryOf(fs, n, model, false, c).trips, now, c.cooldown)
              || InCooldown(HistoryOf(fs, n, model, true, c).trips, now, c.cooldown)
  {
    TablesMatchHistory(fs, n, model, false, c);
    TablesMatchHistory(fs, n, model, true, c);
    hide Run, HistoryOf, InWindow;
  }

  predicate InCooldown(trips: seq<int>, now: int, cooldown: int) {
    trips != [] && now < trips[|trips| - 1] + cooldown
  }

  /** A threshold of zero or less turns the breaker off. */
  lemma {:induction false} DisabledNeverOpens(fs: seq<Failure>, n: nat, model: string, now: int, c: Config)
    requires n <= |fs| && c.threshold <= 0
    ensures Run(fs, n, c) == Breaker(EMPTY, EMPTY) && !IsOpenIn(Run(fs, n, c), model, now, c)
  {
    if n > 0 {
      DisabledNeverOpens(fs, n - 1, model, now, c);
    }
  }

  /** Trips so far have each had a threshold's worth of failures, and the rest are still pending. */
  ghost predicate Earned(h: History, c: Config) {
    Product(|h.trips|, c.threshold) + |h.sinceTrip| <= h.failures
  }

  lemma NothingEarned(c: Config)
    ensures Earned(History([], 0, []), c)
  {
    ProductMore(0, c.threshold);
  }

  lemma EarnedStep(h: History, now: int, c: Config)
    requires Earned(h, c)
    ensures Earned(Extended(h, now, c), c)
  {
    var all := h.sinceTrip + [now];
    WithinShrinks(all, now - c.window);
    ProductMore(|h.trips|, c.threshold);
    hide Within, Product;
    assert |h.trips + [now]| == |h.trips| + 1 && |all| == |h.sinceTrip| + 1;
  }

  /** Each trip uses up failures of its own: as many as the threshold. */
  lemma {:induction false} TripsAreEarned(fs: seq<Failure>, n: nat, model: string, is5xx: bool, c: Config)
    requires n <= |fs|
    ensures Earned(HistoryOf(fs, n, model, is5xx, c), c)
  {
    hide About, Extended, Earned;
    if n == 0 {
      NothingEarned(c);
    } else {
      TripsAreEarned(fs, n - 1, model, is5xx, c);
      EarnedStep(HistoryOf(fs, n - 1, model, is5xx, c), fs[n - 1].now, c);
    }
  }
}
