/**
 Battery runtime estimation of server/app/telemetry/battery_estimator.py over the
 reals: a pruned sample window, a least-squares slope through it, and the minutes
 until the line meets a threshold.
 */
module BatteryTrend {
  import opened Options

  datatype Sample = Sample(time: real, level: real)

  const MAX_SAMPLES := 600
  const MIN_SPAN: real := 3.0
  const FLAT_SLOPE: real := -0.000000001

  datatype Kind = Charging | Calculating | Stable | Estimated | ThresholdReached | Unavailable

  datatype Confidence = Low | Medium | High

  datatype Estimate = Estimate(kind: Kind, minutes: Option<int>, confidence: Confidence)

  datatype Settings = Settings(lowerThreshold: real, windowSeconds: real, minSamples: nat, maxMinutes: int)

  // ---- The window ------------------------------------------------------------------

  /** Strictly increasing times. */
  ghost predicate Ordered(s: seq<Sample>) {
    forall i, j :: 0 <= i < j < |s| ==> s[i].time < s[j].time
  }

  /** Strictly increasing times, at most 600 of them, none older than the window. */
  ghost predicate Windowed(s: seq<Sample>, window: real) {
    && |s| <= MAX_SAMPLES
    && Ordered(s)
    && (forall i :: 0 <= i < |s| ==> s[|s| - 1].time - window <= s[i].time)
  }

  /** How many of the oldest samples are before the cutoff. */
  function Stale(s: seq<Sample>, cutoff: real): (k: nat)
    ensures k <= |s|
    ensures forall i :: 0 <= i < k ==> s[i].time < cutoff
    ensures k < |s| ==> cutoff <= s[k].time
  {
    if s == [] || cutoff <= s[0].time then 0
    else
      var k := Stale(s[1..], cutoff);
      assert forall i :: 1 <= i < k + 1 ==> s[i] == s[1..][i - 1];
      k + 1
  }

  function Trim(s: seq<Sample>, cutoff: real): seq<Sample> {
    s[Stale(s, cutoff)..]
  }

  /** A queue of bounded length forgets its oldest element. */
  function Push(s: seq<Sample>, x: Sample): seq<Sample> {
    if |s| < MAX_SAMPLES then s + [x] else s[|s| - MAX_SAMPLES + 1..] + [x]
  }

  function Retained(s: seq<Sample>, x: Sample, window: real): seq<Sample> {
    if s != [] && x.time <= s[|s| - 1].time then s else Trim(Push(s, x), x.time - window)
  }

  lemma PushOrdered(s: seq<Sample>, x: Sample)
    requires Ordered(s) && |s| <= MAX_SAMPLES && (s == [] || s[|s| - 1].time < x.time)
    ensures Ordered(Push(s, x)) && 0 < |Push(s, x)| <= MAX_SAMPLES
    ensures Push(s, x)[|Push(s, x)| - 1] == x
    ensures |Push(s, x)| == if |s| < MAX_SAMPLES then |s| + 1 else MAX_SAMPLES
    ensures forall k :: 0 <= k < |Push(s, x)| - 1 ==> Push(s, x)[k] == s[|s| + 1 - |Push(s, x)| + k]
  {}

  lemma SuffixWindowed(p: seq<Sample>, k: nat, window: real)
    requires k < |p| <= MAX_SAMPLES && Ordered(p) && p[|p| - 1].time - window <= p[k].time
    ensures Windowed(p[k..], window)
  {}

  /** Every accepted sample keeps the window in order and in bounds. */
  lemma RetainedIsWindowed(s: seq<Sample>, x: Sample, window: real)
    requires Windowed(s, window) && window >= 0.0
    ensures Windowed(Retained(s, x, window), window)
    ensures Retained(s, x, window) != []
  {
    hide Push, Ordered, Stale;
    if s == [] || s[|s| - 1].time < x.time {
      PushOrdered(s, x);
      hide Windowed;
      var p := Push(s, x);
      var k := Stale(p, x.time - window);
      assert x.time - window <= p[|p| - 1].time;
      assert k < |p|;
      SuffixWindowed(p, k, window);
    }
  }

  /** On samples in time order, trimming is filtering by age. */
  lemma TrimIsFilter(s: seq<Sample>, cutoff: real, i: nat)
    requires Ordered(s) && i < |s|
    ensures s[i] in Trim(s, cutoff) <==> cutoff <= s[i].time
  {
    var k := Stale(s, cutoff);
    if k <= i {
      assert s[k..][i - k] == s[i];
    } else {
      assert forall j :: 0 <= j < |s[k..]| ==> cutoff <= s[k..][j].time;
    }
  }

  /** Of the earlier samples exactly those stay that are inside the new window and
      are not pushed out by 600 newer ones. */
  lemma RetainedKeepsRecent(s: seq<Sample>, x: Sample, window: real, i: nat)
    requires Windowed(s, window) && window >= 0.0 && i < |s| && s[|s| - 1].time < x.time
    ensures s[i] in Retained(s, x, window) <==> (x.time - window <= s[i].time && |s| - i < MAX_SAMPLES)
  {
    PushOrdered(s, x);
    hide Push;
    var p := Push(s, x);
    var d := |s| + 1 - |p|;
    if d <= i {
      assert p[i - d] == s[i];
      hide Windowed, Ordered, Trim;
      TrimIsFilter(p, x.time - window, i - d);
    } else {
      assert forall k :: 0 <= k < |p| ==> s[i].time < p[k].time;
    }
  }

  // ---- Sums ------------------------------------------------------------------------

  function Sum(xs: seq<real>): real {
    if xs == [] then 0.0 else Sum(xs[..|xs| - 1]) + xs[|xs| - 1]
  }

  function Product(x: real, y: real): real { x * y }

  /** The sum of (x - a) * (y - b) over two sequences side by side. */
  function Cross(xs: seq<real>, ys: seq<real>, a: real, b: real): real
    requires |xs| == |ys|
  {
    if xs == [] then 0.0
    else
      var n := |xs| - 1;
      Cross(xs[..n], ys[..n], a, b) + Product(xs[n] - a, ys[n] - b)
  }

  function Mean(xs: seq<real>): real
    requires xs != []
  {
    Sum(xs) / |xs| as real
  }

  function Times(s: seq<Sample>): (r: seq<real>)
    requires s != []
  {
    seq(|s|, i requires 0 <= i < |s| => s[i].time - s[0].time)
  }

  function Levels(s: seq<Sample>): seq<real> {
    seq(|s|, i requires 0 <= i < |s| => s[i].level)
  }

  function Numerator(xs: seq<real>, ys: seq<real>): real
    requires |xs| == |ys| && xs != []
  {
    Cross(xs, ys, Mean(xs), Mean(ys))
  }

  function Denominator(xs: seq<real>): real
    requires xs != []
  {
    Cross(xs, xs, Mean(xs), Mean(xs))
  }

  function Deviation(xs: seq<real>, a: real): real {
    if xs == [] then 0.0 else Deviation(xs[..|xs| - 1], a) + (xs[|xs| - 1] - a)
  }

  lemma Distribute(x: real, y: real, z: real)
    ensures Product(x, y + z) == Product(x, y) + Product(x, z)
    ensures Product(y + z, x) == Product(y, x) + Product(z, x)
  {}

  lemma Exchange(x: real, y: real, z: real)
    ensures Product(x, y) == Product(y, x)
    ensures Product(x, Product(y, z)) == Product(y, Product(x, z))
    ensures Product(x, -y) == -Product(x, y)
  {}

  lemma {:induction false} DeviationIsSum(xs: seq<real>, a: real)
    ensures Deviation(xs, a) == Sum(xs) - Product(|xs| as real, a)
  {
    if xs != [] {
      var n := |xs| - 1;
      DeviationIsSum(xs[..n], a);
      Distribute(a, n as real, 1.0);
    }
  }

  /** Deviations from the mean cancel. */
  lemma MeanBalances(xs: seq<real>)
    requires xs != []
    ensures Deviation(xs, Mean(xs)) == 0.0
  {
    DeviationIsSum(xs, Mean(xs));
  }

  /** Moving the second centre changes the sum by that much of the deviations. */
  lemma {:induction false} CrossRecentre(xs: seq<real>, ys: seq<real>, a: real, b: real, c: real)
    requires |xs| == |ys|
    ensures Cross(xs, ys, a, c) == Cross(xs, ys, a, b) + Product(b - c, Deviation(xs, a))
  {
    if xs != [] {
      hide Product;
      var n := |xs| - 1;
      CrossRecentre(xs[..n], ys[..n], a, b, c);
      var d := xs[n] - a;
      Distribute(b - c, Deviation(xs[..n], a), d);
      Distribute(d, ys[n] - b, b - c);
      assert ys[n] - c == ys[n] - b + (b - c);
      Exchange(d, b - c, 0.0);
    } else {
      assert Deviation(xs, a) == 0.0;
    }
  }

  /** Around the mean of the first sequence the second may be centred anywhere. */
  lemma NumeratorCentre(xs: seq<real>, ys: seq<real>, c: real)
    requires |xs| == |ys| && xs != []
    ensures Numerator(xs, ys) == Cross(xs, ys, Mean(xs), c)
  {
    MeanBalances(xs);
    CrossRecentre(xs, ys, Mean(xs), Mean(ys), c);
  }

  // ---- The sign of the trend -----------------------------------------------------------

  lemma {:induction false} CrossNonPositive(xs: seq<real>, ys: seq<real>, a: real, b: real)
    requires |xs| == |ys|
    requires forall i :: 0 <= i < |xs| ==> (xs[i] <= a && b <= ys[i]) || (a <= xs[i] && ys[i] <= b)
    ensures Cross(xs, ys, a, b) <= 0.0
  {
    if xs != [] {
      var n := |xs| - 1;
      CrossNonPositive(xs[..n], ys[..n], a, b);
      hide Product;
      Opposite(xs[n] - a, ys[n] - b);
    }
  }

  lemma Opposite(x: real, y: real)
    requires (x <= 0.0 && 0.0 <= y) || (0.0 <= x && y <= 0.0)
    ensures Product(x, y) <= 0.0
  {}

  lemma {:induction false} CrossNegate(xs: seq<real>, ys: seq<real>, zs: seq<real>, a: real, b: real)
    requires |xs| == |ys| == |zs|
    requires forall i :: 0 <= i < |ys| ==> zs[i] == -ys[i]
    ensures Cross(xs, zs, a, -b) == -Cross(xs, ys, a, b)
  {
    if xs != [] {
      var n := |xs| - 1;
      CrossNegate(xs[..n], ys[..n], zs[..n], a, b);
      hide Product;
      Exchange(xs[n] - a, ys[n] - b, 0.0);
      assert zs[n] - -b == -(ys[n] - b);
    }
  }

  /** The first position whose value reaches `a`, or the length. */
  function Reach(xs: seq<real>, a: real, from: nat): (k: nat)
    requires from <= |xs|
    ensures from <= k <= |xs|
    ensures forall i :: from <= i < k ==> xs[i] < a
    ensures k < |xs| ==> a <= xs[k]
    decreases |xs| - from
  {
    if from == |xs| || a <= xs[from] then from else Reach(xs, a, from + 1)
  }

  /** Chebyshev's sum inequality: levels that never rise with time give no rising trend. */
  lemma FallingHasNoRise(xs: seq<real>, ys: seq<real>)
    requires |xs| == |ys| && xs != []
    requires forall i, j :: 0 <= i < j < |xs| ==> xs[i] <= xs[j]
    requires forall i, j :: 0 <= i < j < |ys| ==> ys[j] <= ys[i]
    ensures Numerator(xs, ys) <= 0.0
  {
    var m := Mean(xs);
    var k := Reach(xs, m, 0);
    var c := if k < |ys| then ys[k] else ys[|ys| - 1];
    NumeratorCentre(xs, ys, c);
    CrossNonPositive(xs, ys, m, c);
  }

  lemma RisingHasNoFall(xs: seq<real>, ys: seq<real>)
    requires |xs| == |ys| && xs != []
    requires forall i, j :: 0 <= i < j < |xs| ==> xs[i] <= xs[j]
    requires forall i, j :: 0 <= i < j < |ys| ==> ys[i] <= ys[j]
    ensures Numerator(xs, ys) >= 0.0
  {
    var zs := seq(|ys|, i requires 0 <= i < |ys| => -ys[i]);
    FallingHasNoRise(xs, zs);
    NumeratorCentre(xs, zs, -Mean(ys));
    CrossNegate(xs, ys, zs, Mean(xs), Mean(ys));
  }

  // ---- The denominator -------------------------------------------------------------------

  lemma Square(d: real)
    ensures Product(d, d) >= 0.0 && (d != 0.0 ==> Product(d, d) > 0.0)
  {
    if d < 0.0 { Exchange(d, d, 0.0); Exchange(-d, d, 0.0); Positive(-d, -d); }
    if d > 0.0 { Positive(d, d); }
  }

  lemma Positive(x: real, y: real)
    requires x > 0.0 && y > 0.0
    ensures Product(x, y) > 0.0
  {}

  lemma {:induction false} SpreadIsPositive(xs: seq<real>, a: real, i: nat)
    requires i < |xs|
    ensures Cross(xs, xs, a, a) >= 0.0
    ensures xs[i] != a ==> Cross(xs, xs, a, a) > 0.0
  {
    var n := |xs| - 1;
    if n > 0 {
      SpreadIsPositive(xs[..n], a, if i < n then i else 0);
      assert i < n ==> xs[..n][i] == xs[i];
    }
    hide Product;
    Square(xs[n] - a);
  }

  /** Two different times are enough for a slope. */
  lemma DenominatorPositive(xs: seq<real>)
    requires |xs| >= 2 && xs[0] != xs[|xs| - 1]
    ensures Denominator(xs) > 0.0
  {
    var m := Mean(xs);
    SpreadIsPositive(xs, m, 0);
    SpreadIsPositive(xs, m, |xs| - 1);
  }

  // ---- Points on a line --------------------------------------------------------------------

  lemma {:induction false} LineCross(xs: seq<real>, ys: seq<real>, p: real, q: real, a: real)
    requires |xs| == |ys|
    requires forall i :: 0 <= i < |xs| ==> ys[i] == p + Product(q, xs[i])
    ensures Cross(xs, ys, a, p + Product(q, a)) == Product(q, Cross(xs, xs, a, a))
  {
    hide Product;
    if xs != [] {
      var n := |xs| - 1;
      var d := xs[n] - a;
      LineCross(xs[..n], ys[..n], p, q, a);
      Distribute(q, d, a);
      assert xs[n] == d + a;
      Exchange(d, q, d);
      Distribute(q, Cross(xs[..n], xs[..n], a, a), Product(d, d));
    } else {
      Exchange(q, 0.0, 0.0);
    }
  }

  /** The least-squares slope of points on a line is the line's own. */
  lemma LineSlope(xs: seq<real>, ys: seq<real>, p: real, q: real)
    requires |xs| == |ys| && |xs| >= 2 && xs[0] != xs[|xs| - 1]
    requires forall i :: 0 <= i < |xs| ==> ys[i] == p + Product(q, xs[i])
    ensures Denominator(xs) > 0.0 && Numerator(xs, ys) / Denominator(xs) == q
  {
    hide Product;
    DenominatorPositive(xs);
    var m := Mean(xs);
    NumeratorCentre(xs, ys, p + Product(q, m));
    LineCross(xs, ys, p, q, m);
    Cancel(q, Denominator(xs));
  }

  lemma Cancel(q: real, d: real)
    requires d > 0.0
    ensures Product(q, d) / d == q
  {}

  // ---- The estimate --------------------------------------------------------------------------

  function Abs(x: real): real { if x < 0.0 then -x else x }

  /** Rounding to the nearest integer, ties to even. */
  function Round(x: real): (r: int)
    ensures Abs(r as real - x) <= 0.5
  {
    var f := x.Floor;
    var d := x - f as real;
    if d < 0.5 then f else if d > 0.5 then f + 1 else if f % 2 == 0 then f else f + 1
  }

  function Span(s: seq<Sample>): real
    requires s != []
  {
    s[|s| - 1].time - s[0].time
  }

  function Slope(s: seq<Sample>): real
    requires s != [] && Denominator(Times(s)) > 0.0
  {
    Numerator(Times(s), Levels(s)) / Denominator(Times(s))
  }

  function ConfidenceOf(s: seq<Sample>): Confidence
    requires s != []
  {
    if Span(s) >= 60.0 && |s| >= 30 then High
    else if Span(s) >= 15.0 && |s| >= 10 then Medium
    else Low
  }

  function EstimateOf(s: seq<Sample>, p: Settings, charging: bool): Estimate
    requires p.minSamples >= 1
  {
    if charging then Estimate(Charging, None, Low)
    else if |s| < p.minSamples then Estimate(Calculating, None, Low)
    else if Span(s) < MIN_SPAN then Estimate(Calculating, None, Low)
    else if Denominator(Times(s)) <= 0.0 then Estimate(Unavailable, None, Low)
    else if Slope(s) >= FLAT_SLOPE then Estimate(Stable, None, Low)
    else
      var remaining := s[|s| - 1].level - p.lowerThreshold;
      if remaining <= 0.0 then Estimate(ThresholdReached, Some(0), High)
      else
        var minutes := remaining / -Slope(s) / 60.0;
        if minutes <= 0.0 || minutes > p.maxMinutes as real then Estimate(Unavailable, None, Low)
        else Estimate(Estimated, Some(if Round(minutes) < 1 then 1 else Round(minutes)), ConfidenceOf(s))
  }

  /** The guard against a zero denominator never fires on a window. */
  lemma WindowHasSlope(s: seq<Sample>, window: real)
    requires Windowed(s, window) && s != [] && Span(s) >= MIN_SPAN
    ensures Denominator(Times(s)) > 0.0
  {
    DenominatorPositive(Times(s));
  }

  /** A pack that never discharges within the window is reported stable, however long
      the window; one that never recharges never has a rising slope. */
  lemma TrendSign(s: seq<Sample>, p: Settings, window: real)
    requires Windowed(s, window) && p.minSamples >= 1 && |s| >= p.minSamples && Span(s) >= MIN_SPAN
    ensures Denominator(Times(s)) > 0.0
    ensures (forall i, j :: 0 <= i < j < |s| ==> s[i].level <= s[j].level) ==>
              Slope(s) >= 0.0 && EstimateOf(s, p, false) == Estimate(Stable, None, Low)
    ensures (forall i, j :: 0 <= i < j < |s| ==> s[j].level <= s[i].level) ==> Slope(s) <= 0.0
  {
    WindowHasSlope(s, window);
    var xs, ys := Times(s), Levels(s);
    var d := Denominator(xs);
    if forall i, j :: 0 <= i < j < |s| ==> s[i].level <= s[j].level {
      RisingHasNoFall(xs, ys);
      Sign(Numerator(xs, ys), d);
    }
    if forall i, j :: 0 <= i < j < |s| ==> s[j].level <= s[i].level {
      FallingHasNoRise(xs, ys);
      Sign(Numerator(xs, ys), d);
    }
  }

  lemma Sign(n: real, d: real)
    requires d > 0.0
    ensures (n >= 0.0 ==> n / d >= 0.0) && (n <= 0.0 ==> n / d <= 0.0)
  {}

  /** Levels on an exact line give back the line: its slope, and the minutes until it
      meets the threshold. */
  lemma ExactDischarge(s: seq<Sample>, p: Settings, window: real, start: real, rate: real)
    requires Windowed(s, window) && p.minSamples >= 1 && |s| >= p.minSamples && Span(s) >= MIN_SPAN
    requires forall i :: 0 <= i < |s| ==> s[i].level == start + rate * (s[i].time - s[0].time)
    ensures Denominator(Times(s)) > 0.0 && Slope(s) == rate
    ensures
      var remaining := s[|s| - 1].level - p.lowerThreshold;
      var e := EstimateOf(s, p, false);
      if rate >= FLAT_SLOPE then e.kind == Stable
      else if remaining <= 0.0 then e.kind == ThresholdReached
      else
        var minutes := remaining / -rate / 60.0;
        if minutes > p.maxMinutes as real then e.kind == Unavailable
        else e == Estimate(Estimated, Some(if Round(minutes) < 1 then 1 else Round(minutes)), ConfidenceOf(s))
  {
    LineSlope(Times(s), Levels(s), start, rate);
    var remaining := s[|s| - 1].level - p.lowerThreshold;
    if rate < FLAT_SLOPE && remaining > 0.0 { Quotient(remaining, -rate); }
  }

  lemma Quotient(n: real, d: real)
    requires n > 0.0 && d > 0.0
    ensures n / d > 0.0
  {}

  /** When a number is given it lies between one minute and the configured maximum. */
  lemma EstimateInRange(s: seq<Sample>, p: Settings)
    requires p.minSamples >= 1 && p.maxMinutes >= 1
    ensures var e := EstimateOf(s, p, false);
            && (e.kind == Estimated ==> e.minutes.Some? && 1 <= e.minutes.value <= p.maxMinutes)
            && (e.kind != Estimated ==> e.minutes == None || (e.kind == ThresholdReached && e.minutes == Some(0)))
  {
    var e := EstimateOf(s, p, false);
    if e.kind == Estimated {
      var minutes := (s[|s| - 1].level - p.lowerThreshold) / -Slope(s) / 60.0;
      RoundBelow(minutes, p.maxMinutes);
    }
  }

  lemma RoundBelow(x: real, n: int)
    requires x <= n as real
    ensures Round(x) <= n
  {
    var f := x.Floor;
    assert f <= n;
  }

  /** Only time differences matter: moving the whole clock changes no estimate. */
  lemma ClockShift(s: seq<Sample>, r: seq<Sample>, p: Settings, d: real, charging: bool)
    requires p.minSamples >= 1 && |r| == |s|
    requires forall i :: 0 <= i < |s| ==> r[i] == Sample(s[i].time + d, s[i].level)
    ensures EstimateOf(r, p, charging) == EstimateOf(s, p, charging)
  {
    if s != [] {
      assert Times(r) == Times(s);
      assert Levels(r) == Levels(s);
    }
  }

  // ---- The estimators --------------------------------------------------------------------------

  class TrendEstimator {
    const settings: Settings
    var samples: seq<Sample>

    ghost predicate Valid()
      reads this
    {
      settings.windowSeconds >= 0.0 && settings.minSamples >= 1 && Windowed(samples, settings.windowSeconds)
    }

    constructor (settings: Settings)
      requires settings.windowSeconds >= 0.0 && settings.minSamples >= 1
      ensures Valid() && samples == [] && this.settings == settings
    {
      this.settings := settings;
      samples := [];
    }

    method AddSample(timestamp: real, value: real)
      requires Valid()
      modifies this`samples
      ensures Valid()
      ensures samples == Retained(old(samples), Sample(timestamp, value), settings.windowSeconds)
    {
      RetainedIsWindowed(samples, Sample(timestamp, value), settings.windowSeconds);
      if samples != [] && timestamp <= samples[|samples| - 1].time {
        return;
      }
      samples := Push(samples, Sample(timestamp, value));
      var cutoff := timestamp - settings.windowSeconds;
      while samples != [] && samples[0].time < cutoff
        invariant samples[Stale(samples, cutoff)..] == Retained(old(samples), Sample(timestamp, value),
                                                                settings.windowSeconds)
        decreases |samples|
      {
        samples := samples[1..];
      }
    }

    method Reset()
      requires Valid()
      modifies this`samples
      ensures Valid() && samples == []
    {
      samples := [];
    }

    function Estimation(charging: bool): Estimate
      requires Valid()
      reads this
    {
      EstimateOf(samples, settings, charging)
    }
  }

  /** One reading of the pack. */
  datatype Reading = Reading(time: real, voltage: real, percentage: Option<real>, charging: bool)

  function Clamp(x: real): real { if x > 1.0 then 1.0 else if x < 0.0 then 0.0 else x }

  datatype Pack = Pack(percent: seq<Sample>, volts: seq<Sample>, wasCharging: bool)

  /** What one reading does to both trends. */
  function Feed(k: Pack, r: Reading, window: real): Pack {
    var percent := if r.charging && !k.wasCharging then [] else k.percent;
    var volts := if r.charging && !k.wasCharging then [] else k.volts;
    if r.charging then Pack(percent, volts, true)
    else
      Pack(if r.percentage.Some? then Retained(percent, Sample(r.time, Clamp(r.percentage.value / 100.0)), window)
           else percent,
           Retained(volts, Sample(r.time, r.voltage), window), false)
  }

  function FeedAll(k: Pack, rs: seq<Reading>, window: real): Pack
    decreases |rs|
  {
    if rs == [] then k else FeedAll(Feed(k, rs[0], window), rs[1..], window)
  }

  class BatteryRuntimeEstimator {
    const percent: TrendEstimator
    const volts: TrendEstimator
    var wasCharging: bool

    ghost predicate Valid()
      reads this, percent, volts
    {
      percent != volts && percent.Valid() && volts.Valid() &&
          percent.settings.windowSeconds == volts.settings.windowSeconds
    }

    ghost function View(): Pack
      reads this, percent, volts
    {
      Pack(percent.samples, volts.samples, wasCharging)
    }

    constructor (lowPercent: real, cutoffVoltage: real)
      ensures Valid() && fresh(percent) && fresh(volts) && View() == Pack([], [], false)
      ensures percent.settings == Settings(lowPercent / 100.0, 300.0, 4, 1440)
      ensures volts.settings == Settings(cutoffVoltage, 300.0, 4, 1440)
    {
      percent := new TrendEstimator(Settings(lowPercent / 100.0, 300.0, 4, 1440));
      volts := new TrendEstimator(Settings(cutoffVoltage, 300.0, 4, 1440));
      wasCharging := false;
    }

    method AddSample(r: Reading)
      requires Valid()
      modifies this, percent, volts
      ensures Valid() && View() == Feed(old(View()), r, volts.settings.windowSeconds)
    {
      hide Windowed, Retained;
      if r.charging && !wasCharging {
        percent.Reset();
        volts.Reset();
      }
      wasCharging := r.charging;
      if !r.charging {
        if r.percentage.Some? {
          percent.AddSample(r.time, Clamp(r.percentage.value / 100.0));
        }
        volts.AddSample(r.time, r.voltage);
      }
    }

    /** Prefers the percentage trend when it can say a number. */
    function Estimation(charging: bool, hasPercentage: bool): Estimate
      requires Valid()
      reads this, percent, volts
    {
      if charging then Estimate(Charging, None, Low)
      else if hasPercentage && percent.Estimation(false).kind == Estimated then percent.Estimation(false)
      else volts.Estimation(false)
    }
  }

  /** Nothing measured before a charge session influences what is known after it. */
  lemma {:induction false} ChargingForgets(k: Pack, rs: seq<Reading>, charge: Reading, ss: seq<Reading>, window: real)
    requires charge.charging && !FeedAll(k, rs, window).wasCharging
    ensures FeedAll(k, rs + [charge] + ss, window) == FeedAll(Pack([], [], true), ss, window)
    decreases |rs|
  {
    if rs == [] {
      assert rs + [charge] + ss == [charge] + ss;
      assert ([charge] + ss)[1..] == ss;
    } else {
      assert (rs + [charge] + ss)[1..] == rs[1..] + [charge] + ss;
      ChargingForgets(Feed(k, rs[0], window), rs[1..], charge, ss, window);
    }
  }

  /** Whatever readings arrive, both windows stay in order and every stored percentage
      lies between empty and full. */
  lemma {:induction false} FeedingKeepsWindows(k: Pack, rs: seq<Reading>, window: real)
    requires window >= 0.0 && Windowed(k.percent, window) && Windowed(k.volts, window)
    requires forall i :: 0 <= i < |k.percent| ==> 0.0 <= k.percent[i].level <= 1.0
    ensures var r := FeedAll(k, rs, window);
            && Windowed(r.percent, window) && Windowed(r.volts, window)
            && (forall i :: 0 <= i < |r.percent| ==> 0.0 <= r.percent[i].level <= 1.0)
    decreases |rs|
  {
    if rs != [] {
      FeedKeepsWindows(k, rs[0], window);
      FeedingKeepsWindows(Feed(k, rs[0], window), rs[1..], window);
    }
  }

  lemma FeedKeepsWindows(k: Pack, r: Reading, window: real)
    requires window >= 0.0 && Windowed(k.percent, window) && Windowed(k.volts, window)
    requires forall i :: 0 <= i < |k.percent| ==> 0.0 <= k.percent[i].level <= 1.0
    ensures var n := Feed(k, r, window);
            && Windowed(n.percent, window) && Windowed(n.volts, window)
            && (forall i :: 0 <= i < |n.percent| ==> 0.0 <= n.percent[i].level <= 1.0)
  {
    hide Retained;
    if !r.charging {
      hide Windowed;
      var x := Sample(r.time, Clamp(if r.percentage.Some? then r.percentage.value / 100.0 else 0.0));
      RetainedIsWindowed(k.volts, Sample(r.time, r.voltage), window);
      RetainedIsWindowed(k.percent, x, window);
      RetainedFrom(k.percent, x, window);
    }
  }

  lemma RetainedFrom(s: seq<Sample>, x: Sample, window: real)
    ensures forall i :: 0 <= i < |Retained(s, x, window)| ==>
              Retained(s, x, window)[i] in s || Retained(s, x, window)[i] == x
  {
    var p := Push(s, x);
    assert forall i :: 0 <= i < |p| ==> p[i] in s || p[i] == x;
    hide Push, Stale;
  }
}
