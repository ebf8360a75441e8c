/** The sampling rate estimator of internal/predictor/model.go in exact
    arithmetic: current segment, trailing fits, and the two burn rates. */
module BurnRate {
  import opened LeastSquares

  /** Instants in nanoseconds; `resetsAt` is the window's period end. */
  datatype Sample = Sample(ts: int, remaining: real, cap: real, resetsAt: int)

  datatype Fit = Fit(b: real, r2: real)

  datatype Rates = Rates(conservative: real, optimistic: real, r2: real, samples: nat)

  const HOUR := 3_600_000_000_000
  const SECOND := 1_000_000_000

  function Hours(ns: int): real { ns as real / 3600000000000.0 }

  function Max(a: real, b: real): real { if a < b then b else a }

  // ---- the current segment ----

  function BumpTolerance(pct: bool, cap: real): real {
    if pct then 5.0 else Max(0.05 * cap, 0.5)
  }

  /** A rise beyond tolerance, or a period end moved forward by over half a day. */
  predicate Bump(pct: bool, prev: Sample, cur: Sample) {
    cur.remaining > prev.remaining + BumpTolerance(pct, cur.cap) || cur.resetsAt - prev.resetsAt > 12 * HOUR
  }

  /** Where the current segment starts, scanning back from position `i`. */
  function SegmentStart(pct: bool, series: seq<Sample>, i: nat): (start: nat)
    requires i < |series|
    ensures start <= i
  {
    if i == 0 then 0 else if Bump(pct, series[i - 1], series[i]) then i else SegmentStart(pct, series, i - 1)
  }

  /** A reset as upstream shows it: a rise by more than five points, or in dollars
      by more than fifty cents and a twentieth of the cap; or a period that ends
      more than twelve hours later. */
  ghost predicate Jumps(pct: bool, prev: Sample, cur: Sample) {
    var rise := cur.remaining - prev.remaining;
    || (if pct then rise > 5.0 else rise > 0.5 && rise > 0.05 * cur.cap)
    || cur.resetsAt - prev.resetsAt > 43_200_000_000_000
  }

  /** The current segment is the longest suffix without such a jump. */
  lemma {:induction false} SegmentIsLongest(pct: bool, series: seq<Sample>, i: nat)
    requires i < |series|
    ensures var start := SegmentStart(pct, series, i);
            && (forall j :: start < j <= i ==> !Jumps(pct, series[j - 1], series[j]))
            && (start > 0 ==> Jumps(pct, series[start - 1], series[start]))
  {
    if i > 0 && !Bump(pct, series[i - 1], series[i]) {
      SegmentIsLongest(pct, series, i - 1);
    }
  }

  function Segment(pct: bool, series: seq<Sample>): seq<Sample> {
    if |series| < 2 then series else series[SegmentStart(pct, series, |series| - 1)..]
  }

  method CurrentSegment(pct: bool, series: seq<Sample>) returns (segment: seq<Sample>)
    ensures segment == Segment(pct, series)
  {
    if |series| < 2 {
      return series;
    }
    var i := |series| - 1;
    while i > 0
      invariant 0 <= i < |series| && SegmentStart(pct, series, |series| - 1) == SegmentStart(pct, series, i)
    {
      var prev, cur := series[i - 1], series[i];
      if cur.remaining > prev.remaining + BumpTolerance(pct, cur.cap) {
        return series[i..];
      }
      if cur.resetsAt != prev.resetsAt && cur.resetsAt - prev.resetsAt > 12 * HOUR {
        return series[i..];
      }
      i := i - 1;
    }
    return series;
  }

  // ---- ordinary least squares ----

  function Points(series: seq<Sample>): (ps: seq<Point>)
    ensures |ps| == |series|
    ensures forall i :: 0 <= i < |ps| ==> ps[i] == Point(Hours(series[i].ts - series[0].ts), series[i].remaining)
  {
    PointsFrom(series, if series == [] then 0 else series[0].ts)
  }

  function PointsFrom(series: seq<Sample>, x0: int): (ps: seq<Point>)
    ensures |ps| == |series|
    ensures forall i :: 0 <= i < |ps| ==> ps[i] == Point(Hours(series[i].ts - x0), series[i].remaining)
  {
    if series == [] then []
    else PointsFrom(series[..|series| - 1], x0) + [Point(Hours(series[|series| - 1].ts - x0), series[|series| - 1].remaining)]
  }

  function Intercept(ps: seq<Point>, b: real): real
    requires ps != []
  {
    Offset(SumX(ps), SumY(ps), |ps| as real, b)
  }

  /** The coefficient of determination, 1 for a flat series. */
  function Quality(ssRes: real, ssTot: real): real {
    if ssTot > 0.000000001 then Max(0.0, 1.0 - ssRes / ssTot) else 1.0
  }

  function FitOf(ps: seq<Point>): Fit {
    if |ps| < 2 then Fit(0.0, 0.0)
    else if Den(ps) <= GUARD then Fit(0.0, 1.0)
    else
      var b := Num(ps) / Den(ps);
      Fit(b, Quality(Sse(ps, Intercept(ps, b), b), Sse(ps, SumY(ps) / |ps| as real, 0.0)))
  }

  method Sums(series: seq<Sample>) returns (sx: real, sy: real, sxx: real, sxy: real)
    requires series != []
    ensures var ps := Points(series);
            sx == SumX(ps) && sy == SumY(ps) && sxx == SumXX(ps) && sxy == SumXY(ps)
  {
    ghost var ps := Points(series);
    var x0 := series[0].ts;
    sx, sy, sxx, sxy := 0.0, 0.0, 0.0, 0.0;
    for i := 0 to |series|
      invariant sx == SumX(ps[..i]) && sy == SumY(ps[..i]) && sxx == SumXX(ps[..i]) && sxy == SumXY(ps[..i])
    {
      hide Mul, Hours;
      var x := Hours(series[i].ts - x0);
      assert ps[..i + 1] == ps[..i] + [ps[i]];
      SumsStep(ps[..i], ps[i]);
      sx, sy := sx + x, sy + series[i].remaining;
      sxx, sxy := sxx + Mul(x, x), sxy + Mul(x, series[i].remaining);
    }
    assert ps[..|ps|] == ps;
  }

  method SquaredErrors(series: seq<Sample>, a: real, b: real) returns (sse: real)
    requires series != []
    ensures sse == Sse(Points(series), a, b)
  {
    ghost var ps := Points(series);
    var x0 := series[0].ts;
    sse := 0.0;
    for i := 0 to |series|
      invariant sse == Sse(ps[..i], a, b)
    {
      hide Residual, Squared, Hours;
      var p := Point(Hours(series[i].ts - x0), series[i].remaining);
      assert ps[..i + 1][..i] == ps[..i] && ps[i] == p;
      sse := sse + Squared(Residual(p, a, b));
    }
    assert ps[..|ps|] == ps;
  }

  method Ols(series: seq<Sample>) returns (fit: Fit)
    ensures fit == FitOf(Points(series))
  {
    if |series| < 2 {
      return Fit(0.0, 0.0);
    }
    hide SumX, SumY, SumXX, SumXY, Sse, Centred, Quality;
    ghost var ps := Points(series);
    var sx, sy, sxx, sxy := Sums(series);
    var n := |series| as real;
    var den := Centred(n, sxx, sx, sx);
    assert den == Den(ps) && Centred(n, sxy, sx, sy) == Num(ps);
    if den <= GUARD {
      return Fit(0.0, 1.0);
    }
    var b := Centred(n, sxy, sx, sy) / den;
    var a, meanY := Offset(sx, sy, n, b), sy / n;
    assert b == Num(ps) / Den(ps);
    assert a == Intercept(ps, b) && meanY == SumY(ps) / |ps| as real;
    hide Intercept, Num, Den, Offset;
    var ssRes := SquaredErrors(series, a, b);
    var ssTot := SquaredErrors(series, meanY, 0.0);
    fit := Fit(b, Quality(ssRes, ssTot));
  }

  /** The clamp never binds: a fit is never worse than the mean. */
  lemma {:induction false} FitQuality(ps: seq<Point>)
    requires |ps| >= 2 && Den(ps) > 0.000000000001
    ensures var f := FitOf(ps);
            var ssRes, ssTot := Sse(ps, Intercept(ps, f.b), f.b), Sse(ps, SumY(ps) / |ps| as real, 0.0);
            && 0.0 <= ssRes <= ssTot && 0.0 <= f.r2 <= 1.0
            && f.r2 == if ssTot > 0.000000001 then 1.0 - ssRes / ssTot else 1.0
  {
    var b := Num(ps) / Den(ps);
    hide Sse, Num, Den, SumX, SumY, Quality, Offset;
    var a, mean := Intercept(ps, b), SumY(ps) / |ps| as real;
    SlopeIsLeastSquares(ps, a, b, mean, 0.0);
    hide Intercept;
    SsePositive(ps, a, b);
    QualityIs(Sse(ps, a, b), Sse(ps, mean, 0.0));
  }

  lemma {:induction false} QualityIs(ssRes: real, ssTot: real)
    requires 0.0 <= ssRes <= ssTot
    ensures 0.0 <= Quality(ssRes, ssTot) <= 1.0
    ensures Quality(ssRes, ssTot) == if ssTot > 0.000000001 then 1.0 - ssRes / ssTot else 1.0
  {
    if ssTot > 0.000000001 {
      QuotientBelowOne(ssRes, ssTot);
    }
  }

  lemma {:induction false} QuotientBelowOne(a: real, b: real)
    requires 0.0 <= a <= b && b > 0.0
    ensures 0.0 <= a / b <= 1.0
  {
  }

  lemma {:induction false} SsePositive(ps: seq<Point>, a: real, b: real)
    ensures Sse(ps, a, b) >= 0.0
  {
    hide Squared, Residual;
    if ps == [] {
    } else {
      SsePositive(ps[..|ps| - 1], a, b);
      SquaredPositive(Residual(ps[|ps| - 1], a, b));
    }
  }

  // ---- trailing fits ----

  /** The first sample after the cutoff; 0 when there is none. */
  function FirstAfter(series: seq<Sample>, cutoff: int, i: nat): (start: nat)
    requires i <= |series|
    ensures start < |series| || start == 0
    decreases |series| - i
  {
    if i == |series| then 0 else if series[i].ts > cutoff then i else FirstAfter(series, cutoff, i + 1)
  }

  function TrailingStart(series: seq<Sample>, cutoff: int): (start: nat)
    requires series != []
    ensures start < |series|
  {
    var first := FirstAfter(series, cutoff, 0);
    if |series| - 1 - first >= 1 then first else if |series| >= 2 then |series| - 2 else 0
  }

  lemma {:induction false} FirstAfterIs(series: seq<Sample>, cutoff: int, i: nat, k: nat)
    requires i <= k < |series| && series[k].ts > cutoff && forall j :: i <= j < k ==> series[j].ts <= cutoff
    ensures FirstAfter(series, cutoff, i) == k
    decreases k - i
  {
    if i < k {
      FirstAfterIs(series, cutoff, i + 1, k);
    }
  }

  lemma {:induction false} NoneAfter(series: seq<Sample>, cutoff: int, i: nat)
    requires i <= |series| && forall j :: i <= j < |series| ==> series[j].ts <= cutoff
    ensures FirstAfter(series, cutoff, i) == 0
    decreases |series| - i
  {
    if i < |series| {
      NoneAfter(series, cutoff, i + 1);
    }
  }

  /** Which samples a trailing fit uses, on a series in time order. With none in
      the window it is the whole series, not the last two points. */
  lemma {:induction false} TrailingUses(series: seq<Sample>, cutoff: int)
    requires |series| >= 2 && forall i, j :: 0 <= i < j < |series| ==> series[i].ts <= series[j].ts
    ensures var start := TrailingStart(series, cutoff);
            && (series[|series| - 1].ts <= cutoff ==> start == 0)
            && (series[|series| - 2].ts <= cutoff < series[|series| - 1].ts ==> start == |series| - 2)
            && (cutoff < series[|series| - 2].ts ==> forall i :: 0 <= i < |series| ==> (start <= i <==> cutoff < series[i].ts))
  {
    var n := |series| - 1;
    if series[n].ts <= cutoff {
      NoneAfter(series, cutoff, 0);
    } else if series[n - 1].ts <= cutoff {
      FirstAfterIs(series, cutoff, 0, n);
    } else {
      var k := FirstIn(series, cutoff);
      FirstAfterIs(series, cutoff, 0, k);
    }
  }

  lemma {:induction false} FirstIn(series: seq<Sample>, cutoff: int) returns (k: nat)
    requires series != [] && series[|series| - 1].ts > cutoff
    ensures k < |series| && series[k].ts > cutoff && forall j :: 0 <= j < k ==> series[j].ts <= cutoff
  {
    k := 0;
    while series[k].ts <= cutoff
      invariant k < |series| && forall j :: 0 <= j < k ==> series[j].ts <= cutoff
      decreases |series| - k
    {
      k := k + 1;
    }
  }

  function TrailingFitOf(series: seq<Sample>, now: int, window: int): Fit
    requires series != []
  {
    FitOf(Points(series[TrailingStart(series, now - window)..]))
  }

  lemma {:induction false} ToTheEnd(series: seq<Sample>, start: nat)
    requires start < |series|
    ensures series[start..(|series| - 1) + 1] == series[start..]
  {
  }

  method TrailingFit(series: seq<Sample>, now: int, window: int) returns (fit: Fit)
    requires series != []
    ensures fit == TrailingFitOf(series, now, window)
  {
    hide FitOf, Points;
    var end := |series| - 1;
    var cutoff := now - window;
    var start := 0;
    for i := 0 to |series|
      invariant start == 0 && FirstAfter(series, cutoff, 0) == FirstAfter(series, cutoff, i)
    {
      if series[i].ts > cutoff {
        start := i;
        break;
      }
    }
    if end - start < 1 {
      start := end - 1;
    }
    if start < 0 {
      start := 0;
    }
    ToTheEnd(series, start);
    fit := Ols(series[start..end + 1]);
  }

  // ---- the estimate ----

  function RatesOf(pct: bool, series: seq<Sample>, now: int): Rates {
    if |series| < 2 then Rates(0.0, 0.0, 0.0, |series|)
    else
      var segment := Segment(pct, series);
      if |segment| < 2 then Rates(0.0, 0.0, 1.0, |segment|)
      else
        var short, long := TrailingFitOf(segment, now, 6 * HOUR), TrailingFitOf(segment, now, 24 * HOUR);
        var shortBurn, longBurn := Max(0.0, -short.b), Max(0.0, -long.b);
        Rates(Max(shortBurn, longBurn), longBurn, short.r2, |segment|)
  }

  method Estimate(pct: bool, series: seq<Sample>, now: int) returns (rates: Rates)
    ensures rates == RatesOf(pct, series, now)
  {
    hide TrailingFitOf, Segment;
    if |series| < 2 {
      return Rates(0.0, 0.0, 0.0, |series|);
    }
    var segment := CurrentSegment(pct, series);
    if |segment| < 2 {
      return Rates(0.0, 0.0, 1.0, |segment|);
    }
    var short := TrailingFit(segment, now, 6 * HOUR);
    var long := TrailingFit(segment, now, 24 * HOUR);
    var shortBurn, longBurn := Max(0.0, -short.b), Max(0.0, -long.b);
    return Rates(Max(shortBurn, longBurn), longBurn, short.r2, |segment|);
  }

  /** The suffix of samples younger than `age`, at least two of them. */
  ghost predicate Younger(series: seq<Sample>, now: int, age: int, k: nat) {
    && k + 2 <= |series|
    && forall i :: 0 <= i < |series| ==> (i >= k <==> now - series[i].ts < age)
  }

  /** With enough samples in the last six hours and the last day: the optimistic
      rate is the day's slope, the conservative one the steeper of both, neither
      below zero, and the quality is that of the six hours. */
  lemma {:induction false} RatesUseWindows(pct: bool, series: seq<Sample>, now: int, short: nat, long: nat)
    requires |series| >= 2
    requires Younger(Segment(pct, series), now, 21_600_000_000_000, short) && Younger(Segment(pct, series), now, 86_400_000_000_000, long)
    ensures var segment, rates := Segment(pct, series), RatesOf(pct, series, now);
            var six, day := FitOf(Points(segment[short..])), FitOf(Points(segment[long..]));
            && rates.samples == |segment| && rates.r2 == six.r2
            && rates.optimistic >= 0.0 && rates.optimistic >= -day.b && (rates.optimistic == 0.0 || rates.optimistic == -day.b)
            && rates.conservative >= rates.optimistic && rates.conservative >= -six.b
            && (rates.conservative == rates.optimistic || rates.conservative == -six.b)
  {
    hide FitOf, Points, Segment;
    var segment := Segment(pct, series);
    FirstAfterIs(segment, now - 6 * HOUR, 0, short);
    FirstAfterIs(segment, now - 24 * HOUR, 0, long);
  }

  /** Too little to fit: no rate, and full marks only for a segment of one. */
  lemma {:induction false} TooFewSamples(pct: bool, series: seq<Sample>, now: int)
    ensures |series| < 2 ==> RatesOf(pct, series, now) == Rates(0.0, 0.0, 0.0, |series|)
    ensures |series| >= 2 && |Segment(pct, series)| == 1 ==> RatesOf(pct, series, now) == Rates(0.0, 0.0, 1.0, 1)
    ensures forall ps :: |ps| >= 2 && Den(ps) <= 0.000000000001 ==> FitOf(ps) == Fit(0.0, 1.0)
    ensures forall ps :: |ps| < 2 ==> FitOf(ps) == Fit(0.0, 0.0)
  {
    hide TrailingFitOf, Segment, Den, Num;
  }

  /** For every series: rates are never negative and the optimistic rate never
      exceeds the conservative one. */
  lemma {:induction false} RatesAreOrdered(pct: bool, series: seq<Sample>, now: int)
    ensures 0.0 <= RatesOf(pct, series, now).optimistic <= RatesOf(pct, series, now).conservative
  {
    hide TrailingFitOf, Segment;
  }

  ghost predicate InOrder(series: seq<Sample>) {
    forall i, j :: 0 <= i < j < |series| ==> series[j].ts - series[i].ts >= SECOND
  }

  /** A steady drain at rate r (units per hour) from `level`, with one period end. */
  ghost predicate LinearDrain(series: seq<Sample>, level: real, r: real) {
    && InOrder(series) && r >= 0.0
    && (forall i :: 0 <= i < |series| ==>
          series[i].remaining == level - r * ((series[i].ts - series[0].ts) as real / 3600000000000.0))
    && (forall i :: 0 <= i < |series| ==> series[i].resetsAt == series[0].resetsAt && series[i].cap >= 0.0)
  }

  lemma {:induction false} HoursApart(a: int, b: int)
    ensures Hours(a) - Hours(b) == Hours(a - b)
    ensures a >= SECOND ==> Hours(a) >= 1.0 / 3600.0
    ensures a >= 0 ==> Hours(a) >= 0.0
  {
  }

  /** A later sample of a steady drain is not higher, and resets at the same time. */
  lemma {:induction false} DrainFalls(series: seq<Sample>, level: real, r: real, j: nat)
    requires LinearDrain(series, level, r) && 0 < j < |series|
    ensures series[j].remaining <= series[j - 1].remaining && series[j].resetsAt == series[j - 1].resetsAt && series[j].cap >= 0.0
  {
    HoursApart(series[j].ts - series[0].ts, series[j - 1].ts - series[0].ts);
    var h, h' := Hours(series[j].ts - series[0].ts), Hours(series[j - 1].ts - series[0].ts);
    HoursApart(series[j].ts - series[j - 1].ts, 0);
    hide Hours;
    NotLess(r, h, h');
    assert series[j - 1].remaining == level - r * h' && series[j].remaining == level - r * h;
  }

  lemma {:induction false} NotLess(r: real, a: real, b: real)
    requires r >= 0.0 && a >= b
    ensures r * a >= r * b
  {
    assert r * (a - b) >= 0.0;
  }

  lemma {:induction false} DrainHasNoBump(pct: bool, series: seq<Sample>, level: real, r: real)
    requires LinearDrain(series, level, r)
    ensures Segment(pct, series) == series
  {
    forall j | 0 < j < |series|
      ensures !Jumps(pct, series[j - 1], series[j])
    {
      DrainFalls(series, level, r, j);
      hide Hours, LinearDrain;
    }
    if |series| >= 2 {
      SegmentIsLongest(pct, series, |series| - 1);
    }
  }

  lemma {:induction false} Shifted(level: real, r: real, x: real, shift: real)
    ensures level - r * (x + shift) == (level - r * shift) - r * x
  {
    assert r * (x + shift) == r * x + r * shift;
  }

  lemma {:induction false} PointOnLine(series: seq<Sample>, level: real, r: real, start: nat, i: nat)
    requires LinearDrain(series, level, r) && start + i < |series|
    ensures series[start + i].remaining
            == (level - r * Hours(series[start].ts - series[0].ts)) - r * Hours(series[start + i].ts - series[start].ts)
  {
    var h, shift := Hours(series[start + i].ts - series[0].ts), Hours(series[start].ts - series[0].ts);
    HoursApart(series[start + i].ts - series[0].ts, series[start].ts - series[0].ts);
    assert series[start + i].remaining == level - r * h;
    Shifted(level, r, h - shift, shift);
  }

  lemma {:induction false} SuffixOnLine(series: seq<Sample>, level: real, r: real, start: nat, c: real)
    requires LinearDrain(series, level, r) && start < |series| && c == level - r * Hours(series[start].ts - series[0].ts)
    ensures OnLine(Points(series[start..]), c, r)
  {
    var tail := series[start..];
    var ps := Points(tail);
    hide LinearDrain, Hours, Points;
    forall i | 0 <= i < |ps|
      ensures ps[i].y == c - r * ps[i].x
    {
      PointOnLine(series, level, r, start, i);
      assert tail[i] == series[start + i] && tail[0] == series[start];
    }
  }

  lemma {:induction false} SuffixPassesGuard(series: seq<Sample>, start: nat)
    requires InOrder(series) && start + 2 <= |series|
    ensures Den(Points(series[start..])) > GUARD
  {
    var tail := series[start..];
    assert tail[1] == series[start + 1] && tail[0] == series[start];
    HoursApart(tail[1].ts - tail[0].ts, tail[0].ts - tail[0].ts);
    hide Den;
    SecondPassesGuard(Points(tail), 0, 1);
  }

  lemma {:induction false} SuffixFit(series: seq<Sample>, level: real, r: real, start: nat)
    requires LinearDrain(series, level, r) && start + 2 <= |series|
    ensures FitOf(Points(series[start..])).b == -r
  {
    DrainInOrder(series, level, r);
    hide LinearDrain, OnLine, Num, Den, Sse, SumX, SumY, Hours, InOrder;
    var c := level - r * Hours(series[start].ts - series[0].ts);
    SuffixOnLine(series, level, r, start, c);
    SuffixPassesGuard(series, start);
    var ps := Points(series[start..]);
    LinearSlope(ps, c, r);
    Quotient(Num(ps), Den(ps), -r);
  }

  lemma {:induction false} Quotient(a: real, b: real, q: real)
    requires b > 0.0 && a == q * b
    ensures a / b == q
  {
  }

  /** On any steady drain both rates are the true burn. */
  lemma {:induction false} LinearDrainIsExact(pct: bool, series: seq<Sample>, now: int, level: real, r: real)
    requires |series| >= 2 && LinearDrain(series, level, r)
    ensures var rates := RatesOf(pct, series, now);
            rates.conservative == r && rates.optimistic == r && rates.samples == |series|
  {
    hide FitOf, Points, Segment, LinearDrain, TrailingStart;
    DrainHasNoBump(pct, series, level, r);
    TrailingLeavesTwo(series, now - 6 * HOUR);
    TrailingLeavesTwo(series, now - 24 * HOUR);
    SuffixFit(series, level, r, TrailingStart(series, now - 6 * HOUR));
    SuffixFit(series, level, r, TrailingStart(series, now - 24 * HOUR));
    DrainRate(series, level, r);
  }

  lemma {:induction false} DrainInOrder(series: seq<Sample>, level: real, r: real)
    requires LinearDrain(series, level, r)
    ensures InOrder(series)
  {
  }

  lemma {:induction false} DrainRate(series: seq<Sample>, level: real, r: real)
    requires LinearDrain(series, level, r)
    ensures r >= 0.0
  {
  }

  lemma {:induction false} TrailingLeavesTwo(series: seq<Sample>, cutoff: int)
    requires |series| >= 2
    ensures TrailingStart(series, cutoff) + 2 <= |series|
  {
  }

  /** A series that never rises has no negative burn: its slope is at most zero. */
  lemma {:induction false} FallingSlope(series: seq<Sample>)
    requires forall i, j :: 0 <= i < j < |series| ==> series[i].ts <= series[j].ts && series[i].remaining >= series[j].remaining
    ensures FitOf(Points(series)).b <= 0.0
  {
    var ps := Points(series);
    forall i, j | 0 <= i < j < |ps|
      ensures ps[i].x <= ps[j].x && ps[i].y >= ps[j].y
    {
      HoursApart(series[j].ts - series[0].ts, series[i].ts - series[0].ts);
      HoursApart(series[j].ts - series[i].ts, 0);
    }
    FallingNum(ps);
    hide Num, Den, Sse, SumX, SumY;
    if |ps| >= 2 && Den(ps) > GUARD {
      NonPositiveQuotient(Num(ps), Den(ps));
    }
  }

  lemma {:induction false} NonPositiveQuotient(a: real, b: real)
    requires a <= 0.0 && b > 0.0
    ensures a / b <= 0.0
  {
  }
}
