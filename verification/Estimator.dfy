/** The end-time estimator of src/job.c: a sliding window over the progress notifications,
    and what the average of its segment speeds says about the end. Doubles are reals here. */
module Estimator {
  import opened Wrappers

  const MAX_SAMPLES := 100
  const USEC_PER_SEC := 1000000.0

  datatype Sample = Sample(time: int, value: real)

  /** `Undefined` is where the source divides by zero. */
  datatype Estimate = TooFew | Undefined | Estimate(rate: real, end: int)

  // --- The window -----------------------------------------------------------------------------

  /** The last hundred notifications, in order of arrival. */
  function Window(history: seq<Sample>): seq<Sample> {
    if |history| <= MAX_SAMPLES then history else history[|history| - MAX_SAMPLES..]
  }

  lemma WindowSlides(history: seq<Sample>, s: Sample)
    ensures var w := Window(history);
            Window(history + [s]) == (if |w| == MAX_SAMPLES then w[1..] else w) + [s]
  {
    var longer := history + [s];
    if |history| >= MAX_SAMPLES {
      assert longer[|longer| - MAX_SAMPLES..] == history[|history| - MAX_SAMPLES..][1..] + [s];
    }
  }

  // --- Speeds ---------------------------------------------------------------------------------

  predicate Moves(w: seq<Sample>) {
    forall i :: 0 < i < |w| ==> w[i - 1].time != w[i].time
  }

  function Speed(a: Sample, b: Sample): real
    requires a.time != b.time
  {
    (b.value - a.value) / (b.time - a.time) as real
  }

  function SumOfSpeeds(w: seq<Sample>): real
    requires Moves(w)
  {
    if |w| < 2 then 0.0
    else SumOfSpeeds(w[..|w| - 1]) + Speed(w[|w| - 2], w[|w| - 1])
  }

  function Average(w: seq<Sample>): real
    requires Moves(w) && |w| >= 2
  {
    SumOfSpeeds(w) / (|w| - 1) as real
  }

  // Conversion to an integer drops the fraction.
  function Truncate(r: real): int {
    if r >= 0.0 then r.Floor else -(-r).Floor
  }

  function EstimateFrom(w: seq<Sample>, bytes: nat): Estimate {
    if |w| < 5 then TooFew
    else if !Moves(w) || Average(w) == 0.0 then Undefined
    else
      var last := w[|w| - 1];
      Estimate(if bytes > 0 then bytes as real * Average(w) * USEC_PER_SEC else 0.0,
               last.time + Truncate((1.0 - last.value) / Average(w)))
  }

  class StorageJob {
    var samples: array<Sample>
    var numSamples: nat
    var autoEstimate: bool
    var connected: bool
    // everything that was notified while estimating
    ghost var history: seq<Sample>

    ghost predicate Valid()
      reads this, samples
    {
      && samples.Length == MAX_SAMPLES && numSamples <= MAX_SAMPLES
      && samples[..numSamples] == Window(history)
      && connected == autoEstimate
    }

    constructor ()
      ensures Valid() && fresh(samples) && history == [] && !autoEstimate
    {
      samples := new Sample[MAX_SAMPLES](_ => Sample(0, 0.0));
      numSamples := 0;
      autoEstimate := false;
      connected := false;
      history := [];
    }

    // The handler comes and goes; the samples stay.
    method SetAutoEstimate(value: bool)
      requires Valid()
      modifies this`autoEstimate, this`connected
      ensures Valid() && autoEstimate == value
    {
      if value == autoEstimate {
        return;
      }
      connected := value;
      autoEstimate := value;
    }

    method ShiftDown()
      requires samples.Length == MAX_SAMPLES
      modifies samples
      ensures samples[..MAX_SAMPLES - 1] == old(samples[1..MAX_SAMPLES])
    {
      var i := 0;
      while i < MAX_SAMPLES - 1
        invariant 0 <= i <= MAX_SAMPLES - 1
        invariant forall k :: 0 <= k < i ==> samples[k] == old(samples[k + 1])
        invariant forall k :: i <= k < MAX_SAMPLES ==> samples[k] == old(samples[k])
      {
        samples[i] := samples[i + 1];
        i := i + 1;
      }
    }

    method AddSample(s: Sample)
      requires Valid()
      modifies this`numSamples, this`history, samples
      ensures Valid() && history == old(history) + [s] && numSamples > 0
    {
      WindowSlides(history, s);
      if numSamples == MAX_SAMPLES {
        ShiftDown();
        numSamples := numSamples - 1;
        assert samples[..numSamples] == Window(history)[1..];
      }
      samples[numSamples] := s;
      numSamples := numSamples + 1;
      history := history + [s];
      assert samples[..numSamples] == samples[..numSamples - 1] + [s];
    }

    method OnNotifyProgress(now: int, progress: real, bytes: nat) returns (e: Estimate)
      requires Valid()
      modifies this`numSamples, this`history, samples
      ensures Valid() && history == old(history) + [Sample(now, progress)]
      ensures e == EstimateFrom(Window(history), bytes)
    {
      AddSample(Sample(now, progress));
      if numSamples < 5 {
        return TooFew;
      }
      e := EstimateFromSamples(now, progress, bytes);
    }

    method EstimateFromSamples(now: int, progress: real, bytes: nat) returns (e: Estimate)
      requires Valid() && numSamples >= 5 && samples[numSamples - 1] == Sample(now, progress)
      ensures e == EstimateFrom(samples[..numSamples], bytes)
    {
      var sum := AddSpeeds();
      if sum.None? {
        return Undefined;
      }
      var average := sum.value / (numSamples - 1) as real;
      if average == 0.0 {
        return Undefined;
      }
      var rate := if bytes > 0 then bytes as real * average * USEC_PER_SEC else 0.0;
      return Estimate(rate, now + Truncate((1.0 - progress) / average));
    }

    // None where two neighbours have the same time.
    method AddSpeeds() returns (sum: Option<real>)
      requires Valid() && numSamples > 0
      ensures sum == if Moves(samples[..numSamples]) then Some(SumOfSpeeds(samples[..numSamples])) else None
    {
      ghost var w := samples[..numSamples];
      var sumOfSpeeds := 0.0;
      var n := 1;
      while n < numSamples
        invariant 1 <= n <= numSamples
        invariant Moves(w[..n]) && sumOfSpeeds == SumOfSpeeds(w[..n])
      {
        var a, b := samples[n - 1], samples[n];
        assert w[..n + 1][..n] == w[..n] && a == w[n - 1] && b == w[n];
        if a.time == b.time {
          return None;
        }
        sumOfSpeeds := sumOfSpeeds + (b.value - a.value) / (b.time - a.time) as real;
        n := n + 1;
      }
      assert w[..n] == w;
      return Some(sumOfSpeeds);
    }

    /** A change of the progress property reaches the estimator only while it is on. */
    method NotifyProgress(now: int, progress: real, bytes: nat) returns (e: Estimate)
      requires Valid()
      modifies this`numSamples, this`history, samples
      ensures Valid() && history == old(history) + (if autoEstimate then [Sample(now, progress)] else [])
      ensures autoEstimate ==> e == EstimateFrom(Window(history), bytes)
    {
      e := TooFew;
      if connected {
        e := OnNotifyProgress(now, progress, bytes);
      }
    }
  }

  // --- What the estimate is worth -------------------------------------------------------------

  /** The sample is on the line through (end, 1.0) with slope c. */
  predicate OnLine(s: Sample, c: real, end: real) {
    s.value == 1.0 - c * (end - s.time as real)
  }

  lemma LineSpeed(a: Sample, b: Sample, c: real, end: real)
    requires a.time != b.time && OnLine(a, c, end) && OnLine(b, c, end)
    ensures Speed(a, b) == c
  {
    var d := b.time as real - a.time as real;
    assert d == (b.time - a.time) as real;
    assert b.value - a.value == c * (end - a.time as real) - c * (end - b.time as real) == c * d;
  }

  lemma OneMore(x: real, n: int)
    ensures x * (n + 1) as real == x * n as real + x
  {
    assert (n + 1) as real == n as real + 1.0;
  }

  lemma {:induction false} LineSum(w: seq<Sample>, c: real, end: real)
    requires Moves(w) && forall i :: 0 <= i < |w| ==> OnLine(w[i], c, end)
    requires |w| >= 1
    ensures SumOfSpeeds(w) == c * (|w| - 1) as real
  {
    if |w| >= 2 {
      LineSum(w[..|w| - 1], c, end);
      LineSpeed(w[|w| - 2], w[|w| - 1], c, end);
      OneMore(c, |w| - 2);
    }
  }

  lemma QuotientOfProduct(c: real, n: real)
    requires n != 0.0
    ensures (c * n) / n == c
  {
  }

  lemma TruncateIsClose(r: real)
    ensures -1.0 < Truncate(r) as real - r < 1.0
    ensures (r >= 0.0 ==> Truncate(r) as real <= r) && (r <= 0.0 ==> r <= Truncate(r) as real)
  {
  }

  lemma LineRemaining(c: real, rest: real)
    requires c != 0.0
    ensures (c * rest) / c == rest
  {
    assert c * rest == rest * c;
    QuotientOfProduct(rest, c);
  }

  /** If all notifications lie on one line that reaches 1.0 at `end`, the estimate is within a
      microsecond of it, on the side of now, from the fifth notification on and however far the window
      slid. The rate is the slope for a second, in bytes. */
  lemma ExactOnLine(history: seq<Sample>, bytes: nat, c: real, end: real)
    requires |history| >= 5 && Moves(history) && c != 0.0
    requires forall i :: 0 <= i < |history| ==> OnLine(history[i], c, end)
    ensures var e := EstimateFrom(Window(history), bytes);
            e.Estimate? && -1.0 < e.end as real - end < 1.0
    ensures EstimateFrom(Window(history), bytes).rate == if bytes > 0 then bytes as real * c * 1000000.0 else 0.0
    ensures var now, e := history[|history| - 1].time, EstimateFrom(Window(history), bytes);
            (now as real <= end ==> e.end as real <= end) && (end <= now as real ==> end <= e.end as real)
  {
    var w := Window(history);
    WindowIsSuffix(history);
    LineAverage(w, c, end);
    ExactEstimate(w, bytes, c, end);
  }

  /** There is no estimate before the fifth notification, nor one while two neighbours among the last
      hundred came in one microsecond. */
  lemma FiveAreNeeded(history: seq<Sample>, bytes: nat)
    ensures var w, e := history[if |history| > 100 then |history| - 100 else 0..], EstimateFrom(Window(history), bytes);
            && (e == TooFew <==> |history| < 5)
            && (e.Estimate? ==> forall i :: 0 < i < |w| ==> w[i - 1].time != w[i].time)
  {
    WindowIsSuffix(history);
    assert history[0..] == history;
  }

  /** On evenly spaced notifications the rate is the overall one: bytes for each second. */
  lemma EvenRate(w: seq<Sample>, d: int, bytes: nat)
    requires d != 0 && |w| >= 5 && Even(w, d) && w[0].value != w[|w| - 1].value
    ensures w[0].time != w[|w| - 1].time
    ensures var e := EstimateFrom(w, bytes);
            && e.Estimate?
            && e.rate == if bytes > 0 then bytes as real * Speed(w[0], w[|w| - 1]) * 1000000.0 else 0.0
  {
    EvenAverage(w, d);
    SpeedIsSomething(w[0], w[|w| - 1]);
  }

  lemma SpeedIsSomething(a: Sample, b: Sample)
    requires a.time != b.time && a.value != b.value
    ensures Speed(a, b) != 0.0
  {
    var d := (b.time - a.time) as real;
    assert Speed(a, b) * d == b.value - a.value;
  }

  lemma WindowIsSuffix(history: seq<Sample>)
    ensures var w := Window(history);
            && |w| == (if |history| <= MAX_SAMPLES then |history| else MAX_SAMPLES)
            && (forall i :: 0 <= i < |w| ==> w[i] == history[i + |history| - |w|])
            && (Moves(history) ==> Moves(w))
  {
  }

  lemma ExactEstimate(w: seq<Sample>, bytes: nat, c: real, end: real)
    requires |w| >= 5 && Moves(w) && c != 0.0 && Average(w) == c && OnLine(w[|w| - 1], c, end)
    ensures var e := EstimateFrom(w, bytes);
            e.Estimate? && -1.0 < e.end as real - end < 1.0
    ensures var now, e := w[|w| - 1].time, EstimateFrom(w, bytes);
            (now as real <= end ==> e.end as real <= end) && (end <= now as real ==> end <= e.end as real)
  {
    var last := w[|w| - 1];
    var rest := end - last.time as real;
    LineRemaining(c, rest);
    EndOf(w, bytes, rest);
    ShiftedTruncation(last.time, rest);
  }

  lemma EndOf(w: seq<Sample>, bytes: nat, rest: real)
    requires |w| >= 5 && Moves(w) && Average(w) != 0.0
    requires (1.0 - w[|w| - 1].value) / Average(w) == rest
    ensures var e := EstimateFrom(w, bytes);
            e.Estimate? && e.end == w[|w| - 1].time + Truncate(rest)
  {
  }

  lemma ShiftedTruncation(t: int, rest: real)
    ensures -1.0 < (t + Truncate(rest)) as real - (t as real + rest) < 1.0
    ensures (rest >= 0.0 ==> (t + Truncate(rest)) as real <= t as real + rest) && (rest <= 0.0 ==> t as real + rest <= (t + Truncate(rest)) as real)
  {
    TruncateIsClose(rest);
    SumAsReal(t, Truncate(rest));
  }

  lemma SumAsReal(a: int, b: int)
    ensures (a + b) as real == a as real + b as real
  {
  }

  lemma LineAverage(w: seq<Sample>, c: real, end: real)
    requires Moves(w) && |w| >= 2 && forall i :: 0 <= i < |w| ==> OnLine(w[i], c, end)
    ensures Average(w) == c
  {
    LineSum(w, c, end);
    QuotientOfProduct(c, (|w| - 1) as real);
  }

  lemma {:induction false} SumBounds(w: seq<Sample>, lo: real, hi: real)
    requires Moves(w) && |w| >= 1
    requires forall i :: 0 < i < |w| ==> lo <= Speed(w[i - 1], w[i]) <= hi
    ensures Spans(SumOfSpeeds(w), |w| - 1, lo, hi)
  {
    if |w| >= 2 {
      var v := w[..|w| - 1];
      SumBounds(v, lo, hi);
      BoundsGrow(SumOfSpeeds(v), Speed(w[|w| - 2], w[|w| - 1]), |v| - 1, lo, hi);
    } else {
      assert SumOfSpeeds(w) == 0.0;
    }
  }

  // s lies between n times lo and n times hi.
  predicate Spans(s: real, n: int, lo: real, hi: real) {
    lo * n as real <= s <= hi * n as real
  }

  lemma BoundsGrow(s: real, x: real, n: int, lo: real, hi: real)
    requires Spans(s, n, lo, hi) && lo <= x <= hi
    ensures Spans(s + x, n + 1, lo, hi)
  {
    OneMore(lo, n);
    OneMore(hi, n);
  }

  lemma QuotientBounds(s: real, n: real, lo: real, hi: real)
    requires n > 0.0 && lo * n <= s <= hi * n
    ensures lo <= s / n <= hi
  {
    var q := s / n;
    assert q * n == s;
    FactorSign(q - lo, n);
    FactorSign(hi - q, n);
  }

  lemma FactorSign(x: real, n: real)
    requires n > 0.0 && x * n >= 0.0
    ensures x >= 0.0
  {
    QuotientOfProduct(x, n);
  }

  /** In general the average lies between the slowest and the fastest segment. */
  lemma AverageIsBetween(w: seq<Sample>, lo: real, hi: real)
    requires Moves(w) && |w| >= 2
    requires forall i :: 0 < i < |w| ==> lo <= Speed(w[i - 1], w[i]) <= hi
    ensures lo <= Average(w) <= hi
  {
    SumBounds(w, lo, hi);
    QuotientBounds(SumOfSpeeds(w), (|w| - 1) as real, lo, hi);
  }

  predicate Even(w: seq<Sample>, d: int) {
    forall i :: 0 < i < |w| ==> w[i].time - w[i - 1].time == d
  }

  lemma {:induction false} EvenTimes(w: seq<Sample>, d: int)
    requires |w| >= 1 && Even(w, d)
    ensures w[|w| - 1].time - w[0].time == d * (|w| - 1)
  {
    if |w| >= 2 {
      EvenTimes(w[..|w| - 1], d);
    }
  }

  // The sum of the speeds, were every segment d long.
  predicate Telescopes(w: seq<Sample>, sum: real, d: int)
    requires d != 0 && |w| >= 1
  {
    sum == (w[|w| - 1].value - w[0].value) / d as real
  }

  lemma {:induction false} EvenSum(w: seq<Sample>, d: int)
    requires d != 0 && |w| >= 1 && Even(w, d) && Moves(w)
    ensures Telescopes(w, SumOfSpeeds(w), d)
  {
    if |w| == 1 {
      ZeroOver(d);
    } else {
      EvenSum(w[..|w| - 1], d);
      EvenStep(w, SumOfSpeeds(w[..|w| - 1]), d);
    }
  }

  lemma ZeroOver(d: int)
    requires d != 0
    ensures 0.0 / d as real == 0.0
  {
  }

  lemma EvenStep(w: seq<Sample>, sum: real, d: int)
    requires d != 0 && |w| >= 2 && w[|w| - 1].time - w[|w| - 2].time == d
    requires Telescopes(w[..|w| - 1], sum, d)
    ensures Telescopes(w, sum + Speed(w[|w| - 2], w[|w| - 1]), d)
  {
    var a, b, z := w[0].value, w[|w| - 2].value, w[|w| - 1].value;
    QuotientsAdd(b - a, z - b, d as real);
  }

  lemma QuotientsAdd(x: real, y: real, d: real)
    requires d != 0.0
    ensures x / d + y / d == (x + y) / d
  {
    QuotientOfProduct(x / d + y / d, d);
    assert (x / d + y / d) * d == x + y;
  }

  lemma ProductAsReal(d: int, n: int)
    ensures (d * n) as real == d as real * n as real
    ensures d != 0 && n != 0 ==> d * n != 0
  {
  }

  lemma NestedQuotient(x: real, d: real, n: real)
    requires d != 0.0 && n != 0.0
    ensures d * n != 0.0 && (x / d) / n == x / (d * n)
  {
    var q := (x / d) / n;
    assert q * n == x / d;
    assert q * (d * n) == (q * n) * d == x;
    QuotientOfProduct(q, d * n);
  }

  /** Evenly spaced notifications: the average is the overall speed. */
  lemma EvenAverage(w: seq<Sample>, d: int)
    requires d != 0 && |w| >= 2 && Even(w, d)
    ensures Moves(w) && w[0].time != w[|w| - 1].time
    ensures Average(w) == Speed(w[0], w[|w| - 1])
  {
    EvenTimes(w, d);
    EvenSum(w, d);
    var n := |w| - 1;
    EvenQuotient(w[n].value - w[0].value, d, n);
    assert w[n].time - w[0].time == d * n;
  }

  lemma EvenQuotient(x: real, d: int, n: int)
    requires d != 0 && n != 0
    ensures d * n != 0 && (x / d as real) / n as real == x / (d * n) as real
  {
    NestedQuotient(x, d as real, n as real);
    ProductAsReal(d, n);
  }

  /** Without even spacing it is not: three samples, the first segment nine times as long. */
  lemma UnevenAverage()
    ensures var w := [Sample(0, 0.0), Sample(9, 0.0), Sample(10, 0.5)];
            Moves(w) && Average(w) == 0.25 && Speed(w[0], w[2]) == 0.05
  {
    var w := [Sample(0, 0.0), Sample(9, 0.0), Sample(10, 0.5)];
    assert w[..2] == [w[0], w[1]] && [w[0], w[1]][..1] == [w[0]];
    assert SumOfSpeeds([w[0]]) == 0.0;
    assert SumOfSpeeds([w[0], w[1]]) == 0.0;
    assert SumOfSpeeds(w) == 0.5;
  }
}
