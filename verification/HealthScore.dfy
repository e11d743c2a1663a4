/** The health score of a window of samples, and what it is worth as a weight multiplier. */
module HealthScore {
  import Scheduling

  datatype Sample = Sample(success: bool, statusCode: int, rtMs: int)

  const LOW_SCORE := 40.0
  const HEALTHY_SCORE := 60.0

  // ---- what is counted -------------------------------------------------------------------------

  predicate Limited(s: Sample) {
    s.statusCode == 429
  }

  /** Server errors and transport errors alike. */
  predicate Unavailable(s: Sample) {
    s.statusCode >= 500 || s.statusCode == 0
  }

  datatype Counted = OfSuccess | OfLimited | OfUnavailable | OfTimed

  predicate Counts(s: Sample, c: Counted) {
    match c
    case OfSuccess => s.success
    case OfLimited => Limited(s)
    case OfUnavailable => Unavailable(s)
    case OfTimed => s.rtMs > 0
  }

  function Count(xs: seq<Sample>, c: Counted, n: nat): (k: nat)
    requires n <= |xs|
    ensures k <= n
  {
    if n == 0 then 0 else Count(xs, c, n - 1) + if Counts(xs[n - 1], c) then 1 else 0
  }

  /** The sum of the positive response times. */
  function TimeSum(xs: seq<Sample>, n: nat): nat
    requires n <= |xs|
  {
    if n == 0 then 0 else TimeSum(xs, n - 1) + if xs[n - 1].rtMs > 0 then xs[n - 1].rtMs else 0
  }

  // ---- the score -------------------------------------------------------------------------------

  function Ratio(k: nat, n: nat): real
    requires n > 0
  {
    k as real / n as real
  }

  /** Full marks below `low`, none above `high`, a straight line between. */
  function Ramp(x: real, low: real, high: real): real
    requires low < high
  {
    if x < low then 100.0 else if x > high then 0.0 else 100.0 * (high - x) / (high - low)
  }

  function TimeMark(xs: seq<Sample>): real {
    var timed := Count(xs, OfTimed, |xs|);
    if timed == 0 then 100.0 else Ramp(Ratio(TimeSum(xs, |xs|), timed) / 1000.0, 2.0, 10.0)
  }

  /** The weighted sum of the four marks, before any clamping. */
  function RawScore(xs: seq<Sample>): real
    requires xs != []
  {
    Ratio(Count(xs, OfSuccess, |xs|), |xs|) * 100.0 * 0.4
    + TimeMark(xs) * 0.2
    + Ramp(Ratio(Count(xs, OfLimited, |xs|), |xs|), 0.05, 0.30) * 0.2
    + Ramp(Ratio(Count(xs, OfUnavailable, |xs|), |xs|), 0.02, 0.20) * 0.2
  }

  function Score(xs: seq<Sample>): real {
    if xs == [] then 100.0 else RawScore(xs)
  }

  // ---- its range -------------------------------------------------------------------------------

  lemma RatioMono(j: nat, k: nat, n: nat)
    requires n > 0 && j <= k
    ensures 0.0 <= Ratio(j, n) <= Ratio(k, n)
    ensures k <= n ==> Ratio(k, n) <= 1.0
  {}

  lemma RampRange(x: real, low: real, high: real)
    requires low < high
    ensures 0.0 <= Ramp(x, low, high) <= 100.0
  {
    if low <= x <= high {
      Slope(high - x, high - low);
    }
  }

  lemma Slope(a: real, b: real)
    requires b > 0.0 && 0.0 <= a <= b
    ensures 0.0 <= 100.0 * a / b <= 100.0
  {}

  lemma RampFalls(x: real, y: real, low: real, high: real)
    requires low < high && x <= y
    ensures Ramp(x, low, high) >= Ramp(y, low, high)
  {
    RampRange(x, low, high);
    RampRange(y, low, high);
    if low <= x && y <= high {
      SlopeMono(high - y, high - x, high - low);
    }
  }

  lemma SlopeMono(a: real, b: real, c: real)
    requires c > 0.0 && a <= b
    ensures 100.0 * a / c <= 100.0 * b / c
  {}

  /** The weighted sum never leaves 0..100, so the clamps after it never act. */
  lemma ScoreRange(xs: seq<Sample>)
    ensures 0.0 <= Score(xs) <= 100.0
  {
    hide Ratio, Ramp, Count, TimeMark;
    if xs != [] {
      var n := |xs|;
      RatioMono(0, Count(xs, OfSuccess, n), n);
      RampRange(Ratio(Count(xs, OfLimited, n), n), 0.05, 0.30);
      RampRange(Ratio(Count(xs, OfUnavailable, n), n), 0.02, 0.20);
      TimeMarkRange(xs);
    }
  }

  lemma TimeMarkRange(xs: seq<Sample>)
    ensures 0.0 <= TimeMark(xs) <= 100.0
  {}

  // ---- what it is, in plain numbers -----------------------------------------------------------

  function Successes(xs: seq<Sample>): set<nat> {
    set i: nat | i < |xs| && xs[i].success
  }

  function TooMany(xs: seq<Sample>): set<nat> {
    set i: nat | i < |xs| && xs[i].statusCode == 429
  }

  function Failures(xs: seq<Sample>): set<nat> {
    set i: nat | i < |xs| && (xs[i].statusCode >= 500 || xs[i].statusCode == 0)
  }

  function Timed(xs: seq<Sample>): set<nat> {
    set i: nat | i < |xs| && xs[i].rtMs > 0
  }

  function Share(s: set<nat>, xs: seq<Sample>): real
    requires xs != []
  {
    |s| as real / |xs| as real
  }

  function Hits(xs: seq<Sample>, c: Counted, n: nat): set<nat>
    requires n <= |xs|
  {
    set i: nat | i < n && Counts(xs[i], c)
  }

  lemma {:induction false} CountIsHits(xs: seq<Sample>, c: Counted, n: nat)
    requires n <= |xs|
    ensures Count(xs, c, n) == |Hits(xs, c, n)|
  {
    hide Counts, Hits;
    HitsStep(xs, c, n);
    if n > 0 {
      CountIsHits(xs, c, n - 1);
    }
  }

  lemma HitsStep(xs: seq<Sample>, c: Counted, n: nat)
    requires n <= |xs|
    ensures |Hits(xs, c, n)| == if n == 0 then 0 else |Hits(xs, c, n - 1)| + if Counts(xs[n - 1], c) then 1 else 0
  {
    hide Counts;
    if n == 0 {
      assert Hits(xs, c, n) == {};
    } else if Counts(xs[n - 1], c) {
      assert Hits(xs, c, n) == Hits(xs, c, n - 1) + {n - 1};
    } else {
      assert Hits(xs, c, n) == Hits(xs, c, n - 1);
    }
  }

  lemma CountsAre(xs: seq<Sample>)
    ensures Count(xs, OfSuccess, |xs|) == |Successes(xs)| && Count(xs, OfLimited, |xs|) == |TooMany(xs)|
    ensures Count(xs, OfUnavailable, |xs|) == |Failures(xs)| && Count(xs, OfTimed, |xs|) == |Timed(xs)|
  {
    hide Count;
    CountIsHits(xs, OfSuccess, |xs|);
    CountIsHits(xs, OfLimited, |xs|);
    CountIsHits(xs, OfUnavailable, |xs|);
    CountIsHits(xs, OfTimed, |xs|);
    assert Hits(xs, OfSuccess, |xs|) == Successes(xs) && Hits(xs, OfLimited, |xs|) == TooMany(xs);
    assert Hits(xs, OfUnavailable, |xs|) == Failures(xs) && Hits(xs, OfTimed, |xs|) == Timed(xs);
  }

  function MeanMs(xs: seq<Sample>): real
    requires Timed(xs) != {}
  {
    TimeSum(xs, |xs|) as real / |Timed(xs)| as real
  }

  /** The points for response times: 20 up to a mean of two seconds, none from ten. */
  function TimePoints(xs: seq<Sample>): real {
    if Timed(xs) == {} || MeanMs(xs) <= 2000.0 then 20.0
    else if MeanMs(xs) >= 10000.0 then 0.0
    else (10000.0 - MeanMs(xs)) / 400.0
  }

  /** 40 points for successes, 20 for response times, and 20 each for few 429s and few failures to
      answer: up to 5 and 2 percent cost nothing, 30 and 20 percent cost all of them. */
  lemma ScoreInPoints(xs: seq<Sample>)
    requires xs != []
    ensures var limited, failed := Share(TooMany(xs), xs), Share(Failures(xs), xs);
            Score(xs) == 40.0 * Share(Successes(xs), xs) + TimePoints(xs)
                       + (if limited <= 0.05 then 20.0 else if limited >= 0.30 then 0.0 else 80.0 * (0.30 - limited))
                       + (if failed <= 0.02 then 20.0 else if failed >= 0.20 then 0.0 else (0.20 - failed) * 1000.0 / 9.0)
  {
    hide Count, Successes, TooMany, Failures, Timed, Ramp, TimePoints, TimeMark;
    CountsAre(xs);
    TimeInPoints(xs);
    Ramps(Share(TooMany(xs), xs), Share(Failures(xs), xs), 0.0);
  }

  /** The three ramps with their corners joined. */
  lemma Ramps(limited: real, failed: real, ms: real)
    ensures Ramp(limited, 0.05, 0.30) * 0.2
         == if limited <= 0.05 then 20.0 else if limited >= 0.30 then 0.0 else 80.0 * (0.30 - limited)
    ensures Ramp(failed, 0.02, 0.20) * 0.2
         == if failed <= 0.02 then 20.0 else if failed >= 0.20 then 0.0 else (0.20 - failed) * 1000.0 / 9.0
    ensures Ramp(ms / 1000.0, 2.0, 10.0) * 0.2
         == if ms <= 2000.0 then 20.0 else if ms >= 10000.0 then 0.0 else (10000.0 - ms) / 400.0
  {}

  lemma TimeInPoints(xs: seq<Sample>)
    ensures TimeMark(xs) * 0.2 == TimePoints(xs)
  {
    hide Count, Timed, Ramp, TimeSum;
    CountsAre(xs);
    if Timed(xs) != {} {
      Ramps(0.0, 0.0, MeanMs(xs));
    }
  }

  /** Every sample is a failure to answer, or every one a 429. */
  predicate NeverAnswers(xs: seq<Sample>) {
    && xs != [] && (forall i :: 0 <= i < |xs| ==> !xs[i].success)
    && ((forall i :: 0 <= i < |xs| ==> xs[i].statusCode >= 500 || xs[i].statusCode == 0)
        || (forall i :: 0 <= i < |xs| ==> xs[i].statusCode == 429))
  }

  /** Such a key keeps 40 points as long as it fails fast: it is below the low mark exactly when the
      mean of its positive response times is above two seconds. */
  lemma FastFailuresAreNotLow(xs: seq<Sample>)
    requires NeverAnswers(xs)
    ensures Score(xs) == 20.0 + TimePoints(xs)
    ensures Score(xs) < LOW_SCORE <==> Timed(xs) != {} && MeanMs(xs) > 2000.0
  {
    hide Score, Timed, MeanMs, Share;
    ScoreInPoints(xs);
    Shares(xs, {});
    assert Successes(xs) == {};
    if forall i :: 0 <= i < |xs| ==> xs[i].statusCode == 429 {
      AllOf(TooMany(xs), |xs|);
      Shares(xs, TooMany(xs));
      assert Failures(xs) == {};
    } else {
      AllOf(Failures(xs), |xs|);
      Shares(xs, Failures(xs));
      assert TooMany(xs) == {};
    }
  }

  lemma Shares(xs: seq<Sample>, s: set<nat>)
    requires xs != []
    ensures s == {} ==> Share(s, xs) == 0.0
    ensures |s| == |xs| ==> Share(s, xs) == 1.0
  {
    Quotients(|s| as real, |xs| as real);
  }

  lemma Quotients(a: real, b: real)
    requires b > 0.0
    ensures a == 0.0 ==> a / b == 0.0
    ensures a == b ==> a / b == 1.0
  {}

  lemma {:induction false} AllOf(s: set<nat>, n: nat)
    requires forall i: nat :: i in s <==> i < n
    ensures |s| == n
  {
    if n == 0 {
      assert s == {};
    } else {
      AllOf(s - {n - 1}, n - 1);
    }
  }

  // ---- its monotonicity ------------------------------------------------------------------------

  /** Nothing about `ys` is worse than about `xs`, sample for sample. */
  predicate NoWorse(xs: seq<Sample>, ys: seq<Sample>) {
    |xs| == |ys| && forall i :: 0 <= i < |xs| ==> SampleNoWorse(xs[i], ys[i])
  }

  /** A success stays one; a 429 or an outage may vanish but not appear; a positive response time stays
      positive and does not rise, and any other stays non-positive. */
  predicate SampleNoWorse(x: Sample, y: Sample) {
    && (x.success ==> y.success)
    && (Limited(y) ==> Limited(x))
    && (Unavailable(y) ==> Unavailable(x))
    && (if x.rtMs > 0 then 0 < y.rtMs <= x.rtMs else y.rtMs <= 0)
  }

  lemma {:induction false} CountsCompare(xs: seq<Sample>, ys: seq<Sample>, n: nat)
    requires NoWorse(xs, ys) && n <= |xs|
    ensures Count(xs, OfSuccess, n) <= Count(ys, OfSuccess, n)
    ensures Count(xs, OfLimited, n) >= Count(ys, OfLimited, n)
    ensures Count(xs, OfUnavailable, n) >= Count(ys, OfUnavailable, n)
    ensures Count(xs, OfTimed, n) == Count(ys, OfTimed, n)
    ensures TimeSum(xs, n) >= TimeSum(ys, n)
  {
    if n > 0 {
      CountsCompare(xs, ys, n - 1);
      assert SampleNoWorse(xs[n - 1], ys[n - 1]);
    }
  }

  lemma TimeMarkMono(xs: seq<Sample>, ys: seq<Sample>)
    requires NoWorse(xs, ys)
    ensures TimeMark(xs) <= TimeMark(ys)
  {
    CountsCompare(xs, ys, |xs|);
    var timed := Count(xs, OfTimed, |xs|);
    if timed > 0 {
      RatioMono(TimeSum(ys, |ys|), TimeSum(xs, |xs|), timed);
      RampFalls(Ratio(TimeSum(ys, |ys|), timed) / 1000.0, Ratio(TimeSum(xs, |xs|), timed) / 1000.0, 2.0, 10.0);
    }
    hide Ramp, Ratio, Count, TimeSum, NoWorse;
  }

  /** The score is monotone in every sample at once. */
  lemma ScoreMono(xs: seq<Sample>, ys: seq<Sample>)
    requires NoWorse(xs, ys)
    ensures Score(xs) <= Score(ys)
  {
    if xs != [] {
      var n := |xs|;
      CountsCompare(xs, ys, n);
      RatioMono(Count(xs, OfSuccess, n), Count(ys, OfSuccess, n), n);
      RatioMono(Count(ys, OfLimited, n), Count(xs, OfLimited, n), n);
      RatioMono(Count(ys, OfUnavailable, n), Count(xs, OfUnavailable, n), n);
      RampFalls(Ratio(Count(ys, OfLimited, n), n), Ratio(Count(xs, OfLimited, n), n), 0.05, 0.30);
      RampFalls(Ratio(Count(ys, OfUnavailable, n), n), Ratio(Count(xs, OfUnavailable, n), n), 0.02, 0.20);
      TimeMarkMono(xs, ys);
      hide Ratio, Ramp, Count, TimeMark, NoWorse;
    }
  }

  /** Turning any sample into a success with status 200 and the same response time never lowers the
      score. */
  lemma SuccessNeverHurts(xs: seq<Sample>, i: nat)
    requires i < |xs|
    ensures Score(xs) <= Score(xs[i := Sample(true, 200, xs[i].rtMs)])
  {
    ScoreMono(xs, xs[i := Sample(true, 200, xs[i].rtMs)]);
    hide Score;
  }

  /** Nor does lowering a positive response time that stays positive. */
  lemma FasterNeverHurts(xs: seq<Sample>, i: nat, rtMs: int)
    requires i < |xs| && 0 < rtMs <= xs[i].rtMs
    ensures Score(xs) <= Score(xs[i := xs[i].(rtMs := rtMs)])
  {
    ScoreMono(xs, xs[i := xs[i].(rtMs := rtMs)]);
    hide Score;
  }

  // -- a response time that is no longer averaged --

  function Retimed(xs: seq<Sample>, i: nat, rtMs: int): seq<Sample>
    requires i < |xs|
  {
    xs[i := xs[i].(rtMs := rtMs)]
  }

  /** A sample whose time is dropped leaves the sum and the number of times, and nothing else. */
  lemma {:induction false} DroppedTime(xs: seq<Sample>, i: nat, rtMs: int, n: nat)
    requires i < |xs| && xs[i].rtMs > 0 >= rtMs && n <= |xs|
    ensures forall c: Counted :: !c.OfTimed? ==> Count(Retimed(xs, i, rtMs), c, n) == Count(xs, c, n)
    ensures Count(Retimed(xs, i, rtMs), OfTimed, n) == Count(xs, OfTimed, n) - if i < n then 1 else 0
    ensures TimeSum(Retimed(xs, i, rtMs), n) == TimeSum(xs, n) - if i < n then xs[i].rtMs else 0
  {
    if n > 0 {
      DroppedTime(xs, i, rtMs, n - 1);
      forall c: Counted | !c.OfTimed? ensures Count(Retimed(xs, i, rtMs), c, n) == Count(xs, c, n) {
        assert Count(Retimed(xs, i, rtMs), c, n - 1) == Count(xs, c, n - 1);
      }
    }
  }

  /** Where the ramp is strictly lower. */
  lemma RampFallsStrictly(x: real, y: real, low: real, high: real)
    requires low < high
    ensures Ramp(y, low, high) < Ramp(x, low, high) <==> x < y && x < high && low < y
  {
    if x < y {
      RampRange(x, low, high);
      RampRange(y, low, high);
      Below(high - x, high - low);
      Below(high - y, high - low);
      Steeper(high - y, high - x, high - low);
    } else {
      RampFalls(y, x, low, high);
    }
  }

  lemma Below(a: real, c: real)
    requires c > 0.0
    ensures a > 0.0 <==> 100.0 * a / c > 0.0
    ensures a < c <==> 100.0 * a / c < 100.0
  {
    assert 100.0 * c / c == 100.0;
    if a < c {
      Steeper(a, c, c);
    } else {
      SlopeMono(c, a, c);
    }
  }

  lemma Steeper(a: real, b: real, c: real)
    requires c > 0.0 && a < b
    ensures 100.0 * a / c < 100.0 * b / c
  {}

  /** The mean response time in milliseconds. */
  function MeanTime(xs: seq<Sample>): real
    requires Count(xs, OfTimed, |xs|) > 0
  {
    Ratio(TimeSum(xs, |xs|), Count(xs, OfTimed, |xs|))
  }

  /** The mean without sample i. */
  function MeanOfOthers(xs: seq<Sample>, i: nat): real
    requires i < |xs| && Count(xs, OfTimed, |xs|) > 1
  {
    (TimeSum(xs, |xs|) - xs[i].rtMs) as real / (Count(xs, OfTimed, |xs|) - 1) as real
  }

  /** Dropping this time raises the mean, and the raise is not lost on the flat ends of the ramp. */
  predicate DroppingHurts(xs: seq<Sample>, i: nat)
    requires i < |xs| && xs[i].rtMs > 0
  {
    && Count(xs, OfTimed, |xs|) > 1
    && MeanTime(xs) < MeanOfOthers(xs, i)
    && MeanTime(xs) < 10000.0 && MeanOfOthers(xs, i) > 2000.0
  }

  lemma {:induction false} TimedCounts(xs: seq<Sample>, i: nat, n: nat)
    requires i < n <= |xs| && xs[i].rtMs > 0
    ensures Count(xs, OfTimed, n) >= 1
  {
    if i < n - 1 {
      TimedCounts(xs, i, n - 1);
    }
  }

  lemma DroppedMark(xs: seq<Sample>, i: nat, rtMs: int)
    requires i < |xs| && xs[i].rtMs > 0 >= rtMs
    ensures TimeMark(Retimed(xs, i, rtMs)) < TimeMark(xs) <==> DroppingHurts(xs, i)
  {
    hide Count, TimeSum, Ratio, Ramp;
    DroppedTime(xs, i, rtMs, |xs|);
    TimedCounts(xs, i, |xs|);
    var timed := Count(xs, OfTimed, |xs|);
    if timed > 1 {
      assert Ratio(TimeSum(Retimed(xs, i, rtMs), |xs|), timed - 1) == MeanOfOthers(xs, i) by {
        RatioIs(TimeSum(Retimed(xs, i, rtMs), |xs|), timed - 1);
      }
      RampFallsStrictly(MeanTime(xs) / 1000.0, MeanOfOthers(xs, i) / 1000.0, 2.0, 10.0);
    } else {
      TimeMarkRange(xs);
    }
  }

  lemma RatioIs(k: nat, n: nat)
    requires n > 0
    ensures Ratio(k, n) == k as real / n as real
  {}

  /** A response time lowered to zero or less is no longer averaged. That lowers the score exactly when
      another time is left, the mean of the others is higher, and the two means are not both on one
      flat end of the ramp. */
  lemma DroppedTimeHurtsIff(xs: seq<Sample>, i: nat, rtMs: int)
    requires i < |xs| && xs[i].rtMs > 0 >= rtMs
    ensures Score(Retimed(xs, i, rtMs)) < Score(xs) <==> DroppingHurts(xs, i)
  {
    hide Count, Ratio, Ramp, TimeMark, DroppingHurts;
    DroppedTime(xs, i, rtMs, |xs|);
    DroppedMark(xs, i, rtMs);
  }

  /** Such a window: a quick answer and a slow one. */
  lemma UntimedCanHurt()
    ensures var xs := [Sample(true, 200, 1000), Sample(true, 200, 9000)];
            DroppingHurts(xs, 0) && Score(Retimed(xs, 0, 0)) < Score(xs)
  {
    var xs := [Sample(true, 200, 1000), Sample(true, 200, 9000)];
    assert TimeSum(xs, 1) == 1000 && TimeSum(xs, 2) == 10000 && Count(xs, OfTimed, 1) == 1 && Count(xs, OfTimed, 2) == 2;
    hide Score;
    DroppedTimeHurtsIff(xs, 0, 0);
  }

  // ---- computing it ----------------------------------------------------------------------------

  /** computeHealthScore. */
  method ComputeHealthScore(samples: seq<Sample>) returns (score: real)
    ensures score == Score(samples) && 0.0 <= score <= 100.0
  {
    hide Ramp, Ratio;
    if |samples| == 0 {
      return 100.0;
    }
    var success, rate429, rate5xx, rtSum, rtCount := 0, 0, 0, 0, 0;
    for i := 0 to |samples|
      invariant success == Count(samples, OfSuccess, i) && rate429 == Count(samples, OfLimited, i)
      invariant rate5xx == Count(samples, OfUnavailable, i)
      invariant rtSum == TimeSum(samples, i) && rtCount == Count(samples, OfTimed, i)
    {
      var s := samples[i];
      if s.success {
        success := success + 1;
      }
      if s.statusCode == 429 {
        rate429 := rate429 + 1;
      } else if s.statusCode >= 500 || s.statusCode == 0 {
        rate5xx := rate5xx + 1;
      }
      if s.rtMs > 0 {
        rtSum, rtCount := rtSum + s.rtMs, rtCount + 1;
      }
    }
    score := Combine(|samples|, success, rate429, rate5xx, rtSum, rtCount);
    ScoreRange(samples);
    hide Count, TimeSum;
    if score < 0.0 {
      score := 0.0;
    }
    if score > 100.0 {
      score := 100.0;
    }
  }

  /** The branches of computeHealthScore after the loop, with the source's own constants. */
  method Combine(total: nat, success: nat, rate429: nat, rate5xx: nat, rtSum: nat, rtCount: nat) returns (score: real)
    requires total > 0
    ensures score == Ratio(success, total) * 100.0 * 0.4
                  + (if rtCount == 0 then 100.0 else Ramp(Ratio(rtSum, rtCount) / 1000.0, 2.0, 10.0)) * 0.2
                  + Ramp(Ratio(rate429, total), 0.05, 0.30) * 0.2 + Ramp(Ratio(rate5xx, total), 0.02, 0.20) * 0.2
  {
    var srScore := Ratio(success, total) * 100.0;
    var rtScore := 100.0;
    if rtCount > 0 {
      var avgRt := Ratio(rtSum, rtCount) / 1000.0;
      rtScore := if avgRt < 2.0 then 100.0 else if avgRt > 10.0 then 0.0 else 100.0 * (10.0 - avgRt) / 8.0;
      assert rtScore == Ramp(avgRt, 2.0, 10.0);
    }
    var r429 := Ratio(rate429, total);
    var r429Score := if r429 < 0.05 then 100.0 else if r429 > 0.30 then 0.0 else 100.0 * (0.30 - r429) / 0.25;
    assert r429Score == Ramp(r429, 0.05, 0.30);
    var r5xx := Ratio(rate5xx, total);
    var r5xxScore := if r5xx < 0.02 then 100.0 else if r5xx > 0.20 then 0.0 else 100.0 * (0.20 - r5xx) / 0.18;
    assert r5xxScore == Ramp(r5xx, 0.02, 0.20);
    hide Ratio, Ramp;
    score := srScore * 0.4 + rtScore * 0.2 + r429Score * 0.2 + r5xxScore * 0.2;
  }

  // ---- what it is worth ------------------------------------------------------------------------

  /** healthMultiplierForScore. */
  function MultiplierFor(score: real): real {
    0.5 + score / 100.0 * 1.5
  }

  /** Every window's multiplier lies in the scheduler's range, so the scheduler keeps it as it is; a
      better score never gets less weight; and a key not cooled for its score has at least 1.1. */
  lemma MultiplierFits(xs: seq<Sample>, ys: seq<Sample>)
    ensures 0.5 <= MultiplierFor(Score(xs)) <= 2.0
    ensures Scheduling.ClampHealthMultiplier(MultiplierFor(Score(xs))) == MultiplierFor(Score(xs))
    ensures Score(xs) <= Score(ys) <==> MultiplierFor(Score(xs)) <= MultiplierFor(Score(ys))
    ensures Score(xs) < 40.0 <==> MultiplierFor(Score(xs)) < 1.1
  {
    ScoreRange(xs);
    hide Score;
  }
}
