/** The shape-aware ETA walk of internal/predictor/model.go in exact arithmetic. */
module EtaWalk {
  import opened Common
  import opened SortedInts

  const HOUR := 3_600_000_000_000

  datatype Walk = Walk(eta: int, burn: real, exhausts: bool)

  /** Hour of day of an instant (nanoseconds, UTC). */
  function HourOf(t: int): nat { (t / HOUR) % 24 }

  function Positive(v: real): real { if v > 0.0 then v else 0.0 }

  // ---- the profile's scale ----

  /** Sum of the positive entries at the given keys. */
  ghost function Mass(profile: map<int, real>, keys: set<int>): real
    requires keys <= profile.Keys
    decreases |keys|
  {
    if keys == {} then 0.0 else Positive(profile[Least(keys)]) + Mass(profile, keys - {Least(keys)})
  }

  /** The order of summation does not matter. */
  lemma {:induction false} MassWithout(profile: map<int, real>, keys: set<int>, k: int)
    requires keys <= profile.Keys && k in keys
    ensures Mass(profile, keys) == Positive(profile[k]) + Mass(profile, keys - {k})
    decreases |keys|
  {
    var m := Least(keys);
    if m != k {
      MassWithout(profile, keys - {m}, k);
      var rest := keys - {m} - {k};
      assert keys - {k} - {m} == rest;
      assert Least(keys - {k}) == m;
      assert Mass(profile, keys - {k}) == Positive(profile[m]) + Mass(profile, rest);
    }
  }

  ghost function ScaleOf(profile: map<int, real>): real {
    var mass := Mass(profile, profile.Keys);
    if mass <= 0.0 then 0.0 else 24.0 / mass
  }

  /** Map iteration in any order. */
  method ShapeScale(profile: map<int, real>) returns (scale: real)
    ensures scale == ScaleOf(profile)
  {
    if |profile| == 0 {
      assert profile.Keys == {};
      return 0.0;
    }
    var mass := 0.0;
    var rest := profile.Keys;
    while rest != {}
      invariant rest <= profile.Keys && mass + Mass(profile, rest) == Mass(profile, profile.Keys)
      decreases |rest|
    {
      ghost var p := Pick(rest);
      var k :| k in rest;
      MassWithout(profile, rest, k);
      if profile[k] > 0.0 {
        mass := mass + profile[k];
      }
      rest := rest - {k};
    }
    if mass <= 0.0 {
      return 0.0;
    }
    return 24.0 / mass;
  }

  /** The burn multiplier of each hour: flat, or scale times the hour's weight. */
  datatype Shape = Flat | Shaped(profile: map<int, real>, scale: real)

  ghost function ShapeOf(profile: Option<map<int, real>>): Shape {
    if profile.None? || ScaleOf(profile.value) <= 0.0 then Flat else Shaped(profile.value, ScaleOf(profile.value))
  }

  function HourWeight(profile: map<int, real>, h: int): real {
    if h in profile then Positive(profile[h]) else 0.0
  }

  function WeightAt(shape: Shape, t: int): real {
    match shape
    case Flat => 1.0
    case Shaped(profile, scale) => scale * HourWeight(profile, HourOf(t))
  }

  /** Sum of the multipliers of the first `n` hours. */
  function Weights(shape: Shape, from: int, n: nat): real {
    if n == 0 then 0.0 else Weights(shape, from, n - 1) + WeightAt(shape, from + (n - 1) * HOUR)
  }

  function Burn(rate: real, weight: real): real { rate * weight }

  /** Burned before hour `n`, and during it. */
  function Burned(shape: Shape, rate: real, from: int, n: nat): real { Burn(rate, Weights(shape, from, n)) }

  function StepAt(shape: Shape, rate: real, from: int, n: nat): real { Burn(rate, WeightAt(shape, from + n * HOUR)) }

  // ---- the walk ----

  /** Nanoseconds into the hour at which `left` is gone. */
  function Fraction(left: real, step: real): int
    requires step > 0.0
  {
    (3600000000000.0 * left / step).Floor
  }

  predicate Crosses(shape: Shape, remaining: real, rate: real, from: int, n: nat) {
    var step := StepAt(shape, rate, from, n);
    step > 0.0 && step >= remaining - Burned(shape, rate, from, n)
  }

  /** The walk from hour `n` on. `resets` None is the zero time. */
  function WalkFrom(shape: Shape, remaining: real, rate: real, from: int, resets: Option<int>, maxHours: nat, n: nat): Walk
    decreases maxHours - n
  {
    if n >= maxHours then Walk(n * HOUR, Burned(shape, rate, from, n), remaining - Burned(shape, rate, from, n) <= 0.0)
    else if Crosses(shape, remaining, rate, from, n) then
      Walk(n * HOUR + Fraction(remaining - Burned(shape, rate, from, n), StepAt(shape, rate, from, n)), remaining, true)
    else if resets.Some? && from + (n + 1) * HOUR >= resets.value then
      Walk((n + 1) * HOUR, Burned(shape, rate, from, n + 1), false)
    else WalkFrom(shape, remaining, rate, from, resets, maxHours, n + 1)
  }

  function WalkOf(shape: Shape, remaining: real, rate: real, from: int, resets: Option<int>, maxHours: nat): Walk {
    if remaining <= 0.0 then Walk(0, 0.0, true) else WalkFrom(shape, remaining, rate, from, resets, maxHours, 0)
  }

  lemma {:induction false} BurnedStep(shape: Shape, rate: real, from: int, n: nat)
    ensures Burned(shape, rate, from, n + 1) == Burned(shape, rate, from, n) + StepAt(shape, rate, from, n)
    ensures Burned(shape, rate, from, 0) == 0.0
  {
    var w, v := Weights(shape, from, n), WeightAt(shape, from + n * HOUR);
    assert rate * (w + v) == rate * w + rate * v;
    assert Weights(shape, from, n + 1) == w + v;
    hide Weights, WeightAt;
  }

  method WalkEta(remaining: real, rate: real, profile: Option<map<int, real>>, from: int, resets: Option<int>, maxHours: nat)
    returns (walk: Walk)
    ensures walk == WalkOf(ShapeOf(profile), remaining, rate, from, resets, maxHours)
  {
    if remaining <= 0.0 {
      return Walk(0, 0.0, true);
    }
    var shape := Flat;
    if profile.Some? {
      var s := ShapeScale(profile.value);
      if s > 0.0 {
        shape := Shaped(profile.value, s);
      }
    }
    assert shape == ShapeOf(profile);
    var left, t, elapsed, total := remaining, from, 0, 0.0;
    BurnedStep(shape, rate, from, 0);
    hide Burned, StepAt, WeightAt, Burn, Fraction, Crosses;
    for i := 0 to maxHours
      invariant t == from + i * HOUR && elapsed == i * HOUR
      invariant total == Burned(shape, rate, from, i) && left == remaining - total
      invariant WalkOf(ShapeOf(profile), remaining, rate, from, resets, maxHours)
                == WalkFrom(shape, remaining, rate, from, resets, maxHours, i)
    {
      BurnedStep(shape, rate, from, i);
      var step := Burn(rate, WeightAt(shape, t));
      StepIs(shape, rate, from, i, remaining);
      if step >= left && step > 0.0 {
        elapsed := elapsed + Fraction(left, step);
        return Walk(elapsed, total + left, true);
      }
      left, total := left - step, total + step;
      elapsed, t := elapsed + HOUR, t + HOUR;
      if resets.Some? && t >= resets.value {
        return Walk(elapsed, total, false);
      }
    }
    return Walk(elapsed, total, left <= 0.0);
  }

  lemma {:induction false} StepIs(shape: Shape, rate: real, from: int, n: nat, remaining: real)
    ensures StepAt(shape, rate, from, n) == Burn(rate, WeightAt(shape, from + n * HOUR))
    ensures Crosses(shape, remaining, rate, from, n) <==>
              StepAt(shape, rate, from, n) > 0.0 && StepAt(shape, rate, from, n) >= remaining - Burned(shape, rate, from, n)
  {
  }

  // ---- first crossing ----

  ghost predicate Usable(shape: Shape) { shape.Shaped? ==> shape.scale > 0.0 }

  lemma {:induction false} WeightPositive(shape: Shape, t: int)
    requires Usable(shape)
    ensures WeightAt(shape, t) >= 0.0
  {
  }

  lemma {:induction false} StepPositive(shape: Shape, rate: real, from: int, n: nat)
    requires Usable(shape) && rate >= 0.0
    ensures StepAt(shape, rate, from, n) >= 0.0
  {
    WeightPositive(shape, from + n * HOUR);
    hide WeightAt;
  }

  /** An hour that does not cross leaves something. */
  lemma {:induction false} NoCrossing(shape: Shape, remaining: real, rate: real, from: int, n: nat)
    requires Usable(shape) && rate >= 0.0 && Burned(shape, rate, from, n) < remaining && !Crosses(shape, remaining, rate, from, n)
    ensures Burned(shape, rate, from, n) <= Burned(shape, rate, from, n + 1) < remaining
  {
    BurnedStep(shape, rate, from, n);
    StepPositive(shape, rate, from, n);
    hide Burned, StepAt;
  }

  lemma {:induction false} FractionWithinHour(left: real, step: real)
    requires 0.0 < left <= step
    ensures 0 <= Fraction(left, step) <= HOUR
  {
    assert 3600000000000.0 * left <= 3600000000000.0 * step;
    assert 0.0 <= 3600000000000.0 * left / step <= 3600000000000.0;
  }

  /** What a walk from hour `n` without a reset finds: the first hour in which the
      cumulative burn reaches the remaining amount, or the cap. */
  ghost predicate FirstAt(shape: Shape, remaining: real, rate: real, from: int, maxHours: nat, n: nat, k: nat, walk: Walk) {
    && n <= k <= maxHours && Burned(shape, rate, from, k) < remaining
    && (forall j :: n <= j <= k ==> Burned(shape, rate, from, j) < remaining)
    && (if k < maxHours then
          && StepAt(shape, rate, from, k) > 0.0 && Burned(shape, rate, from, k + 1) >= remaining
          && walk == Walk(k * HOUR + Fraction(remaining - Burned(shape, rate, from, k), StepAt(shape, rate, from, k)), remaining, true)
          && k * HOUR <= walk.eta <= (k + 1) * HOUR
        else walk == Walk(maxHours * HOUR, Burned(shape, rate, from, maxHours), false))
  }

  lemma {:induction false} WalkFindsFirst(shape: Shape, remaining: real, rate: real, from: int, maxHours: nat, n: nat) returns (k: nat)
    requires Usable(shape) && rate >= 0.0 && n <= maxHours && Burned(shape, rate, from, n) < remaining
    ensures FirstAt(shape, remaining, rate, from, maxHours, n, k, WalkFrom(shape, remaining, rate, from, None, maxHours, n))
    decreases maxHours - n
  {
    k := n;
    hide Burned, StepAt, Fraction;
    if n < maxHours {
      BurnedStep(shape, rate, from, n);
      if Crosses(shape, remaining, rate, from, n) {
        FractionWithinHour(remaining - Burned(shape, rate, from, n), StepAt(shape, rate, from, n));
      } else {
        NoCrossing(shape, remaining, rate, from, n);
        k := WalkFindsFirst(shape, remaining, rate, from, maxHours, n + 1);
      }
    }
  }

  /** With no reset: the walk stops at the first crossing of cumulative burn with
      what remains, or at the cap; it never burns more than remains, and exactly
      that on exhaustion. */
  lemma {:induction false} WalkIsFirstCrossing(profile: Option<map<int, real>>, remaining: real, rate: real, from: int, maxHours: nat)
    returns (k: nat)
    requires remaining > 0.0 && rate >= 0.0
    ensures var shape := ShapeOf(profile);
            var walk := WalkOf(shape, remaining, rate, from, None, maxHours);
            && FirstAt(shape, remaining, rate, from, maxHours, 0, k, walk)
            && 0.0 <= walk.burn <= remaining && (walk.exhausts <==> walk.burn == remaining) && (walk.exhausts <==> k < maxHours)
  {
    var shape := ShapeOf(profile);
    BurnedStep(shape, rate, from, 0);
    hide Burned, StepAt, Fraction;
    k := WalkFindsFirst(shape, remaining, rate, from, maxHours, 0);
    BurnedPositive(shape, rate, from, maxHours);
  }

  lemma {:induction false} BurnedPositive(shape: Shape, rate: real, from: int, n: nat)
    requires Usable(shape) && rate >= 0.0
    ensures Burned(shape, rate, from, n) >= 0.0
  {
    hide Burned, StepAt;
    BurnedStep(shape, rate, from, 0);
    if n == 0 {
    } else {
      BurnedPositive(shape, rate, from, n - 1);
      BurnedStep(shape, rate, from, n - 1);
      StepPositive(shape, rate, from, n - 1);
    }
  }

  // ---- which hour of the profile burns when ----

  /** The burn of an hour of the walk that lies in hour `h` of some day, `into` it
      by `r`: the rate, scaled by that hour's part in the positive mass of the
      profile; the bare rate without a usable profile. */
  lemma {:induction false} HourBurnsItsPart(profile: Option<map<int, real>>, rate: real, from: int, n: nat, day: int, h: int, into: int)
    requires from + n * 3_600_000_000_000 == day * 24 * 3_600_000_000_000 + h * 3_600_000_000_000 + into
    requires 0 <= h < 24 && 0 <= into < 3_600_000_000_000
    ensures StepAt(ShapeOf(profile), rate, from, n)
            == if profile.None? || Mass(profile.value, profile.value.Keys) <= 0.0 then rate
               else rate * (24.0 / Mass(profile.value, profile.value.Keys)
                            * (if h in profile.value && profile.value[h] > 0.0 then profile.value[h] else 0.0))
  {
    hide Mass;
    assert (from + n * HOUR) / HOUR == day * 24 + h;
    assert (day * 24 + h) % 24 == h;
    if profile.Some? && Mass(profile.value, profile.value.Keys) > 0.0 {
      MassDivides(Mass(profile.value, profile.value.Keys));
    }
  }

  lemma {:induction false} MassDivides(mass: real)
    requires mass > 0.0
    ensures 24.0 / mass > 0.0
  {
  }

  /** So for the walk itself: as long as nothing is exhausted, walking one hour more
      burns that hour's part more. */
  lemma {:induction false} WalkBurnsByProfile(profile: Option<map<int, real>>, remaining: real, rate: real, from: int, n: nat,
                                              day: int, h: int, into: int)
    requires remaining > 0.0 && rate >= 0.0
    requires from + n * 3_600_000_000_000 == day * 24 * 3_600_000_000_000 + h * 3_600_000_000_000 + into
    requires 0 <= h < 24 && 0 <= into < 3_600_000_000_000
    requires !WalkOf(ShapeOf(profile), remaining, rate, from, None, n + 1).exhausts
    ensures WalkOf(ShapeOf(profile), remaining, rate, from, None, n + 1).burn - WalkOf(ShapeOf(profile), remaining, rate, from, None, n).burn
            == if profile.None? || Mass(profile.value, profile.value.Keys) <= 0.0 then rate
               else rate * (24.0 / Mass(profile.value, profile.value.Keys)
                            * (if h in profile.value && profile.value[h] > 0.0 then profile.value[h] else 0.0))
  {
    hide Mass, WalkOf, ShapeOf, Burned, StepAt, Fraction;
    HourBurnsItsPart(profile, rate, from, n, day, h, into);
    BurnedStep(ShapeOf(profile), rate, from, n);
    var k := WalkIsFirstCrossing(profile, remaining, rate, from, n);
    var k' := WalkIsFirstCrossing(profile, remaining, rate, from, n + 1);
  }

  /** The ETA is right to the nanosecond: `e` into its hour the burn falls short of
      what was left by less than a nanosecond's. */
  lemma {:induction false} EtaIsExact(profile: Option<map<int, real>>, remaining: real, rate: real, from: int, maxHours: nat)
    returns (k: nat)
    requires remaining > 0.0 && rate >= 0.0
    requires WalkOf(ShapeOf(profile), remaining, rate, from, None, maxHours).exhausts
    ensures var e := WalkOf(ShapeOf(profile), remaining, rate, from, None, maxHours).eta - k * 3_600_000_000_000;
            var left, step := remaining - Burned(ShapeOf(profile), rate, from, k), StepAt(ShapeOf(profile), rate, from, k);
            && k < maxHours && 0.0 < left <= step
            && 0.0 <= 3_600_000_000_000.0 * left - Burn(e as real, step) < step
  {
    hide WalkOf, ShapeOf, Burned, StepAt, Fraction;
    k := WalkIsFirstCrossing(profile, remaining, rate, from, maxHours);
    BurnedStep(ShapeOf(profile), rate, from, k);
    FractionIsFloor(remaining - Burned(ShapeOf(profile), rate, from, k), StepAt(ShapeOf(profile), rate, from, k));
  }

  lemma {:induction false} FractionIsFloor(left: real, step: real)
    requires step > 0.0
    ensures 0.0 <= 3_600_000_000_000.0 * left - Burn(Fraction(left, step) as real, step) < step
  {
    var amount := 3600000000000.0 * left;
    var q := amount / step;
    var e := Fraction(left, step) as real;
    assert 0.0 <= q - e < 1.0;
    hide Fraction, Burn;
    Quotient(amount, step);
    PartOfStep(q, e, step);
  }

  lemma {:induction false} Quotient(amount: real, step: real)
    requires step > 0.0
    ensures Burn(amount / step, step) == amount
  {
  }

  lemma {:induction false} PartOfStep(q: real, e: real, step: real)
    requires step > 0.0 && 0.0 <= q - e < 1.0
    ensures 0.0 <= Burn(q, step) - Burn(e, step) < step
  {
    hide Burn;
    BurnApart(q, e, step);
    PartOfOne(q - e, step);
  }

  lemma {:induction false} BurnApart(q: real, e: real, step: real)
    ensures Burn(q, step) - Burn(e, step) == Burn(q - e, step)
  {
  }

  lemma {:induction false} PartOfOne(part: real, step: real)
    requires step > 0.0 && 0.0 <= part < 1.0
    ensures 0.0 <= Burn(part, step) < step
  {
    var rest := 1.0 - part;
    assert rest * step > 0.0;
    assert rest * step + part * step == step;
  }

  // ---- a faster rate is never later ----

  lemma {:induction false} FasterBurnsMore(shape: Shape, rate: real, rate': real, from: int, n: nat)
    requires Usable(shape) && 0.0 <= rate <= rate'
    ensures Burned(shape, rate, from, n) <= Burned(shape, rate', from, n)
  {
    WeightsPositive(shape, from, n);
    var w := Weights(shape, from, n);
    hide Weights;
    assert (rate' - rate) * w >= 0.0;
    assert rate' * w - rate * w == (rate' - rate) * w;
  }

  lemma {:induction false} WeightsPositive(shape: Shape, from: int, n: nat)
    requires Usable(shape)
    ensures Weights(shape, from, n) >= 0.0
  {
    hide WeightAt;
    if n == 0 {
    } else {
      WeightsPositive(shape, from, n - 1);
      WeightPositive(shape, from + (n - 1) * HOUR);
    }
  }

  lemma {:induction false} QuotientOrder(a: real, b: real, c: real, d: real)
    requires b > 0.0 && d > 0.0 && a * d <= c * b
    ensures a / b <= c / d
  {
    var x := c / d - a / b;
    assert (a / b) * b == a && (c / d) * d == c;
    assert x * (b * d) == c * b - a * d;
    Factor(x, b * d);
  }

  lemma {:induction false} Factor(x: real, y: real)
    requires y > 0.0 && x * y >= 0.0
    ensures x >= 0.0
  {
  }

  lemma {:induction false} FasterFraction(remaining: real, w: real, v: real, rate: real, rate': real)
    requires 0.0 < rate <= rate' && v > 0.0 && remaining > 0.0
    ensures Fraction(remaining - Burn(rate', w), Burn(rate', v)) <= Fraction(remaining - Burn(rate, w), Burn(rate, v))
  {
    var a, b := remaining - rate' * w, rate' * v;
    var c, d := remaining - rate * w, rate * v;
    assert b > 0.0 && d > 0.0;
    assert a * d == remaining * (rate * v) - (rate' * w) * (rate * v);
    assert c * b == remaining * (rate' * v) - (rate * w) * (rate' * v);
    assert (rate' * w) * (rate * v) == (rate * w) * (rate' * v);
    assert remaining * v * (rate' - rate) >= 0.0;
    assert a * d <= c * b;
    QuotientOrder(3600000000000.0 * a, b, 3600000000000.0 * c, d);
  }

  lemma {:induction false} SameHourIsEarlier(shape: Shape, remaining: real, rate: real, rate': real, from: int, k: nat)
    requires Usable(shape) && 0.0 <= rate <= rate' && remaining > 0.0
    requires StepAt(shape, rate, from, k) > 0.0 && StepAt(shape, rate', from, k) > 0.0
    ensures Fraction(remaining - Burned(shape, rate', from, k), StepAt(shape, rate', from, k))
            <= Fraction(remaining - Burned(shape, rate, from, k), StepAt(shape, rate, from, k))
  {
    var w, v := Weights(shape, from, k), WeightAt(shape, from + k * HOUR);
    WeightPositive(shape, from + k * HOUR);
    hide Weights, WeightAt, Fraction;
    assert rate == 0.0 || v == 0.0 ==> Burn(rate, v) == 0.0;
    FasterFraction(remaining, w, v, rate, rate');
  }

  lemma {:induction false} FasterUncapped(profile: Option<map<int, real>>, remaining: real, rate: real, rate': real, from: int, maxHours: nat)
    requires 0.0 <= rate <= rate'
    ensures var slow, fast := WalkOf(ShapeOf(profile), remaining, rate, from, None, maxHours),
                              WalkOf(ShapeOf(profile), remaining, rate', from, None, maxHours);
            fast.eta <= slow.eta && (slow.exhausts ==> fast.exhausts) && slow.burn <= fast.burn
  {
    if remaining > 0.0 {
      var shape := ShapeOf(profile);
      hide Burned, StepAt, Fraction, ShapeOf, WalkOf;
      var k := WalkIsFirstCrossing(profile, remaining, rate, from, maxHours);
      var k' := WalkIsFirstCrossing(profile, remaining, rate', from, maxHours);
      ShapeUsable(profile);
      FasterBurnsMore(shape, rate, rate', from, maxHours);
      if k < k' {
        FasterBurnsMore(shape, rate, rate', from, k + 1);
        assert false;
      }
      if k == k' && k < maxHours {
        SameHourIsEarlier(shape, remaining, rate, rate', from, k);
      }
    }
  }

  lemma {:induction false} ShapeUsable(profile: Option<map<int, real>>)
    ensures Usable(ShapeOf(profile))
  {
  }

  // ---- the reset is tested at hour boundaries only ----

  /** The first boundary at or after the reset, in hours. */
  function ResetHours(from: int, resets: int): (n: nat)
    ensures n >= 1 && from + n * HOUR >= resets && (n > 1 ==> from + (n - 1) * HOUR < resets)
  {
    if resets <= from + HOUR then 1 else (resets - from + HOUR - 1) / HOUR
  }

  function Min(a: nat, b: nat): nat { if a < b then a else b }

  lemma {:induction false} ResetCapsFrom(shape: Shape, remaining: real, rate: real, from: int, resets: int, maxHours: nat, n: nat)
    requires Usable(shape) && rate >= 0.0 && Burned(shape, rate, from, n) < remaining && n < Min(maxHours, ResetHours(from, resets))
    ensures WalkFrom(shape, remaining, rate, from, Some(resets), maxHours, n)
            == WalkFrom(shape, remaining, rate, from, None, Min(maxHours, ResetHours(from, resets)), n)
    decreases maxHours - n
  {
    hide Burned, StepAt, Fraction, ResetHours;
    var cap := Min(maxHours, ResetHours(from, resets));
    if !Crosses(shape, remaining, rate, from, n) {
      NoCrossing(shape, remaining, rate, from, n);
      BoundaryReached(from, resets, n + 1);
      if n + 1 < cap {
        ResetCapsFrom(shape, remaining, rate, from, resets, maxHours, n + 1);
      }
    }
  }

  lemma {:induction false} BoundaryReached(from: int, resets: int, n: nat)
    ensures n >= 1 ==> (from + n * HOUR >= resets <==> n >= ResetHours(from, resets))
  {
    var k := ResetHours(from, resets);
    if n < k {
      assert from + n * HOUR <= from + (k - 1) * HOUR;
    } else {
      assert from + n * HOUR >= from + k * HOUR;
    }
  }

  /** A reset acts exactly as a cap at the first hour boundary not before it. */
  lemma {:induction false} ResetIsCap(profile: Option<map<int, real>>, remaining: real, rate: real, from: int, resets: int, maxHours: nat)
    requires rate >= 0.0
    ensures WalkOf(ShapeOf(profile), remaining, rate, from, Some(resets), maxHours)
            == WalkOf(ShapeOf(profile), remaining, rate, from, None, Min(maxHours, ResetHours(from, resets)))
  {
    if remaining > 0.0 && maxHours > 0 {
      BurnedStep(ShapeOf(profile), rate, from, 0);
      hide Burned, StepAt, Fraction, ResetHours;
      ResetCapsFrom(ShapeOf(profile), remaining, rate, from, resets, maxHours, 0);
    }
  }

  /** The ETA does not increase with the rate, and exhaustion is kept, reset or none. */
  lemma {:induction false} FasterIsNotLater(profile: Option<map<int, real>>, remaining: real, rate: real, rate': real, from: int,
                                            resets: Option<int>, maxHours: nat)
    requires 0.0 <= rate <= rate'
    ensures var slow, fast := WalkOf(ShapeOf(profile), remaining, rate, from, resets, maxHours),
                              WalkOf(ShapeOf(profile), remaining, rate', from, resets, maxHours);
            fast.eta <= slow.eta && (slow.exhausts ==> fast.exhausts) && slow.burn <= fast.burn
  {
    hide ShapeOf, WalkOf, ResetHours;
    if resets.None? {
      FasterUncapped(profile, remaining, rate, rate', from, maxHours);
    } else {
      ResetIsCap(profile, remaining, rate, from, resets.value, maxHours);
      ResetIsCap(profile, remaining, rate', from, resets.value, maxHours);
      FasterUncapped(profile, remaining, rate, rate', from, Min(maxHours, ResetHours(from, resets.value)));
    }
  }

  // ---- less left is never later ----

  lemma {:induction false} FractionOrder(left: real, left': real, step: real)
    requires step > 0.0 && left' <= left
    ensures Fraction(left', step) <= Fraction(left, step)
  {
    QuotientOrder(3600000000000.0 * left', step, 3600000000000.0 * left, step);
  }

  lemma {:induction false} LessUncapped(profile: Option<map<int, real>>, remaining: real, remaining': real, rate: real, from: int,
                                        maxHours: nat)
    requires rate >= 0.0 && remaining' <= remaining
    ensures var more, less := WalkOf(ShapeOf(profile), remaining, rate, from, None, maxHours),
                              WalkOf(ShapeOf(profile), remaining', rate, from, None, maxHours);
            less.eta <= more.eta && (more.exhausts ==> less.exhausts) && less.burn <= more.burn
  {
    var shape := ShapeOf(profile);
    if remaining > 0.0 {
      hide Burned, StepAt, Fraction, ShapeOf, WalkFrom;
      ShapeUsable(profile);
      var k := WalkIsFirstCrossing(profile, remaining, rate, from, maxHours);
      if remaining' > 0.0 {
        var k' := WalkIsFirstCrossing(profile, remaining', rate, from, maxHours);
        if k' < maxHours {
          BurnedRises(shape, rate, from, k' + 1, maxHours);
        }
        if k == k' && k < maxHours {
          FractionOrder(remaining - Burned(shape, rate, from, k), remaining' - Burned(shape, rate, from, k), StepAt(shape, rate, from, k));
        }
      }
    }
  }

  /** The ETA does not increase as less remains, and with nothing left it is now. */
  lemma {:induction false} LessIsNotLater(profile: Option<map<int, real>>, remaining: real, remaining': real, rate: real, from: int,
                                          resets: Option<int>, maxHours: nat)
    requires rate >= 0.0 && remaining' <= remaining
    ensures var more, less := WalkOf(ShapeOf(profile), remaining, rate, from, resets, maxHours),
                              WalkOf(ShapeOf(profile), remaining', rate, from, resets, maxHours);
            && less.eta <= more.eta && (more.exhausts ==> less.exhausts) && less.burn <= more.burn
            && (remaining' <= 0.0 ==> less.exhausts && less.eta == 0)
  {
    hide ShapeOf, ResetHours, WalkFrom;
    if resets.None? {
      LessUncapped(profile, remaining, remaining', rate, from, maxHours);
    } else {
      ResetIsCap(profile, remaining, rate, from, resets.value, maxHours);
      ResetIsCap(profile, remaining', rate, from, resets.value, maxHours);
      LessUncapped(profile, remaining, remaining', rate, from, Min(maxHours, ResetHours(from, resets.value)));
    }
  }

  lemma {:induction false} BurnedRises(shape: Shape, rate: real, from: int, m: nat, n: nat)
    requires Usable(shape) && rate >= 0.0 && m <= n
    ensures Burned(shape, rate, from, m) <= Burned(shape, rate, from, n)
  {
    hide Burned, StepAt;
    if m == n {
    } else {
      BurnedRises(shape, rate, from, m, n - 1);
      BurnedStep(shape, rate, from, n - 1);
      StepPositive(shape, rate, from, n - 1);
    }
  }

  lemma {:induction false} ResetWithinHour(from: int, resets: int)
    ensures var h := ResetHours(from, resets);
            h >= 1 && (h > 1 ==> from + (h - 1) * HOUR < resets) && resets <= from + h * HOUR
    ensures from < resets && (resets - from) % HOUR == 0 ==> resets == from + ResetHours(from, resets) * HOUR
  {
  }

  /** What remains runs out within hour `h`, and after the reset. */
  ghost predicate OverrunsIn(shape: Shape, remaining: real, rate: real, from: int, resets: int, h: nat) {
    && Burned(shape, rate, from, h) < remaining <= Burned(shape, rate, from, h + 1) && StepAt(shape, rate, from, h) > 0.0
    && from + h * HOUR + Fraction(remaining - Burned(shape, rate, from, h), StepAt(shape, rate, from, h)) > resets
  }

  /** A walk is reported as exhausting after its reset exactly when what remains runs
      out in the very hour that holds the reset (the first one, for a reset already
      past), later than the reset. */
  lemma {:induction false} ExhaustsLateIff(profile: Option<map<int, real>>, remaining: real, rate: real, from: int, resets: int,
                                           maxHours: nat)
    requires remaining > 0.0 && rate >= 0.0
    ensures var shape := ShapeOf(profile);
            var walk := WalkOf(shape, remaining, rate, from, Some(resets), maxHours);
            var h := ResetHours(from, resets) - 1;
            walk.exhausts && from + walk.eta > resets <==> h < maxHours && OverrunsIn(shape, remaining, rate, from, resets, h)
  {
    var shape := ShapeOf(profile);
    var cap := Min(maxHours, ResetHours(from, resets));
    ResetIsCap(profile, remaining, rate, from, resets, maxHours);
    ResetWithinHour(from, resets);
    var k := WalkIsFirstCrossing(profile, remaining, rate, from, cap);
    ShapeUsable(profile);
    hide Burned, StepAt, Fraction, ResetHours, WalkOf, ShapeOf;
    var h := ResetHours(from, resets) - 1;
    if k < h {
      BurnedRises(shape, rate, from, k + 1, h);
      assert (k + 1) * HOUR <= h * HOUR;
    }
  }

  /** A reset on the hour grid of the walk is never overrun. */
  lemma {:induction false} GridResetIsNotOverrun(profile: Option<map<int, real>>, remaining: real, rate: real, from: int, resets: int,
                                                 maxHours: nat)
    requires remaining > 0.0 && rate >= 0.0 && from < resets && (resets - from) % HOUR == 0
    ensures var walk := WalkOf(ShapeOf(profile), remaining, rate, from, Some(resets), maxHours);
            walk.exhausts ==> from + walk.eta <= resets
  {
    ExhaustsLateIff(profile, remaining, rate, from, resets, maxHours);
    ResetWithinHour(from, resets);
    var shape, h := ShapeOf(profile), ResetHours(from, resets) - 1;
    BurnedStep(shape, rate, from, h);
    hide Burned, StepAt, ResetHours, WalkOf, ShapeOf, Fraction;
    if OverrunsIn(shape, remaining, rate, from, resets, h) {
      FractionWithinHour(remaining - Burned(shape, rate, from, h), StepAt(shape, rate, from, h));
    }
  }

  /** Such a walk: the reset is one minute away and the exhaustion half an hour. */
  lemma {:induction false} ExhaustsAfterReset(from: int)
    ensures var resets := from + HOUR / 60;
            var walk := WalkOf(Flat, 0.5, 1.0, from, Some(resets), 768);
            walk.exhausts && from + walk.eta > resets
  {
    BurnedStep(Flat, 1.0, from, 0);
    assert StepAt(Flat, 1.0, from, 0) == 1.0;
    assert Crosses(Flat, 0.5, 1.0, from, 0);
    assert Fraction(0.5, 1.0) == HOUR / 2;
  }

  // ---- a day burns a day's worth ----

  /** Sum of the hour weights of `n` consecutive hours of day. */
  function Around(profile: map<int, real>, h: nat, n: nat): real {
    if n == 0 then 0.0 else Around(profile, h, n - 1) + HourWeight(profile, (h + n - 1) % 24)
  }

  lemma {:induction false} AroundFront(profile: map<int, real>, h: nat, n: nat)
    ensures Around(profile, h, n + 1) == HourWeight(profile, h % 24) + Around(profile, h + 1, n)
  {
    hide HourWeight;
    if n == 0 {
    } else {
      AroundFront(profile, h, n - 1);
      assert h + n + 1 - 1 == (h + 1) + n - 1;
    }
  }

  /** Where in the day one starts does not matter. */
  lemma {:induction false} AroundAnyStart(profile: map<int, real>, h: nat)
    ensures Around(profile, h, 24) == Around(profile, 0, 24)
  {
    hide HourWeight;
    if h == 0 {
    } else {
      AroundAnyStart(profile, h - 1);
      AroundFront(profile, h - 1, 23);
      assert (h + 24 - 1) % 24 == (h - 1) % 24;
    }
  }

  ghost function KeysBelow(profile: map<int, real>, n: nat): set<int> { set k | k in profile.Keys && k < n }

  lemma {:induction false} MassIsAround(profile: map<int, real>, n: nat)
    requires n <= 24 && forall k :: k in profile ==> k >= 0
    ensures Mass(profile, KeysBelow(profile, n)) == Around(profile, 0, n)
  {
    if n == 0 {
      assert KeysBelow(profile, 0) == {};
    } else {
      MassIsAround(profile, n - 1);
      var keys := KeysBelow(profile, n);
      if n - 1 in profile {
        MassWithout(profile, keys, n - 1);
        assert keys - {n - 1} == KeysBelow(profile, n - 1);
      } else {
        assert keys == KeysBelow(profile, n - 1);
      }
    }
  }

  lemma {:induction false} WeightsAround(profile: map<int, real>, scale: real, from: int, n: nat, m: nat)
    ensures Weights(Shaped(profile, scale), from, n + m) - Weights(Shaped(profile, scale), from, n)
            == Burn(scale, Around(profile, HourOf(from + n * HOUR), m))
  {
    var shape := Shaped(profile, scale);
    var h := HourOf(from + n * HOUR);
    if m == 0 {
    } else {
      hide HourWeight, HourOf;
      WeightsAround(profile, scale, from, n, m - 1);
      HourAdvances(from + n * HOUR, m - 1);
      assert from + (n + m - 1) * HOUR == from + n * HOUR + (m - 1) * HOUR;
      var a, b := Around(profile, h, m - 1), HourWeight(profile, (h + m - 1) % 24);
      assert WeightAt(shape, from + (n + m - 1) * HOUR) == Burn(scale, b);
      hide Burn, WeightAt;
      BurnSplits(scale, a, b);
    }
  }

  lemma {:induction false} BurnSplits(scale: real, a: real, b: real)
    ensures Burn(scale, a + b) == Burn(scale, a) + Burn(scale, b)
  {
  }

  lemma {:induction false} HourAdvances(t: int, m: nat)
    ensures HourOf(t + m * HOUR) == (HourOf(t) + m) % 24
  {
    assert (t + m * HOUR) / HOUR == t / HOUR + m;
  }

  /** For every profile over the hours of the day, any 24 consecutive hours carry
      weight 24: they burn exactly 24 times the rate. */
  lemma {:induction false} DayBurnsRate(profile: Option<map<int, real>>, rate: real, from: int, n: nat)
    requires profile.Some? ==> forall k :: k in profile.value ==> 0 <= k < 24
    ensures var shape := ShapeOf(profile);
            Burned(shape, rate, from, n + 24) - Burned(shape, rate, from, n) == 24.0 * rate
  {
    var shape := ShapeOf(profile);
    var w, w' := Weights(shape, from, n), Weights(shape, from, n + 24);
    assert w' - w == 24.0 by {
      if shape.Flat? {
        FlatWeights(from, n);
        FlatWeights(from, n + 24);
      } else {
        DayWeighs(profile.value, from, n);
      }
    }
    hide Weights;
    assert rate * w' - rate * w == rate * (w' - w);
  }

  lemma {:induction false} FlatWeights(from: int, n: nat)
    ensures Weights(Flat, from, n) == n as real
  {
    if n == 0 {
    } else {
      FlatWeights(from, n - 1);
    }
  }

  lemma {:induction false} ScaledMass(profile: map<int, real>)
    requires ScaleOf(profile) > 0.0
    ensures Burn(ScaleOf(profile), Mass(profile, profile.Keys)) == 24.0
  {
    var mass := Mass(profile, profile.Keys);
    hide Mass;
    assert ScaleOf(profile) == 24.0 / mass;
    assert (24.0 / mass) * mass == 24.0;
  }

  lemma {:induction false} DayWeighs(profile: map<int, real>, from: int, n: nat)
    requires (forall k :: k in profile ==> 0 <= k < 24) && ScaleOf(profile) > 0.0
    ensures Weights(Shaped(profile, ScaleOf(profile)), from, n + 24) - Weights(Shaped(profile, ScaleOf(profile)), from, n) == 24.0
  {
    hide Weights, Around, HourOf, Burn, Mass, ScaleOf;
    var start := HourOf(from + n * HOUR);
    WeightsAround(profile, ScaleOf(profile), from, n, 24);
    AroundAnyStart(profile, start);
    MassIsAround(profile, 24);
    assert KeysBelow(profile, 24) == profile.Keys;
    ScaledMass(profile);
  }
}
