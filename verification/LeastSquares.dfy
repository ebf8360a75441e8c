/** The OLS arithmetic of internal/predictor/model.go over exact reals. */
module LeastSquares {

  /** Hours since the first sample, and what remained. */
  datatype Point = Point(x: real, y: real)

  /** Named so that inductive steps can treat products as atoms. */
  function Mul(a: real, b: real): real { a * b }

  function SumX(ps: seq<Point>): real { if ps == [] then 0.0 else SumX(ps[..|ps| - 1]) + ps[|ps| - 1].x }

  function SumY(ps: seq<Point>): real { if ps == [] then 0.0 else SumY(ps[..|ps| - 1]) + ps[|ps| - 1].y }

  function SumXX(ps: seq<Point>): real {
    if ps == [] then 0.0 else SumXX(ps[..|ps| - 1]) + Mul(ps[|ps| - 1].x, ps[|ps| - 1].x)
  }

  function SumXY(ps: seq<Point>): real {
    if ps == [] then 0.0 else SumXY(ps[..|ps| - 1]) + Mul(ps[|ps| - 1].x, ps[|ps| - 1].y)
  }

  function Centred(n: real, sxy: real, sx: real, sy: real): real { n * sxy - sx * sy }

  /** Denominator and numerator of the slope as the code computes them. */
  function Den(ps: seq<Point>): real { Centred(|ps| as real, SumXX(ps), SumX(ps), SumX(ps)) }

  function Num(ps: seq<Point>): real { Centred(|ps| as real, SumXY(ps), SumX(ps), SumY(ps)) }

  const GUARD := 0.000000000001

  // ---- the pairwise form ----

  /** Sum of (p.x - q.x) * (p.y - q.y) over the points q of `ps`. */
  function CrossWith(ps: seq<Point>, p: Point): real {
    if ps == [] then 0.0
    else CrossWith(ps[..|ps| - 1], p) + Mul(p.x - ps[|ps| - 1].x, p.y - ps[|ps| - 1].y)
  }

  /** Sum of (p.x - q.x) * (p.y - q.y) over all pairs of points. */
  function Cross(ps: seq<Point>): real {
    if ps == [] then 0.0 else Cross(ps[..|ps| - 1]) + CrossWith(ps[..|ps| - 1], ps[|ps| - 1])
  }

  /** The same points with their time as value: pairwise squared differences. */
  function Times(ps: seq<Point>): (r: seq<Point>)
    ensures |r| == |ps| && forall i :: 0 <= i < |r| ==> r[i] == Point(ps[i].x, ps[i].x)
  {
    if ps == [] then [] else Times(ps[..|ps| - 1]) + [Point(ps[|ps| - 1].x, ps[|ps| - 1].x)]
  }

  function Gain(n: real, x: real, y: real, sx: real, sy: real, sxy: real): real {
    n * (x * y) - x * sy - y * sx + sxy
  }

  lemma {:induction false} GainStep(n: real, x: real, y: real, sx: real, sy: real, sxy: real, u: real, v: real)
    ensures Gain(n + 1.0, x, y, sx + u, sy + v, sxy + Mul(u, v)) == Gain(n, x, y, sx, sy, sxy) + Mul(x - u, y - v)
  {
    assert (x - u) * (y - v) == x * y - x * v - y * u + u * v;
    assert (n + 1.0) * (x * y) == n * (x * y) + x * y;
    assert x * (sy + v) == x * sy + x * v;
    assert y * (sx + u) == y * sx + y * u;
  }

  lemma {:induction false} CrossWithIsSums(ps: seq<Point>, p: Point)
    ensures CrossWith(ps, p) == Gain(|ps| as real, p.x, p.y, SumX(ps), SumY(ps), SumXY(ps))
  {
    if ps == [] {
    } else {
      var rest, q := ps[..|ps| - 1], ps[|ps| - 1];
      CrossWithIsSums(rest, p);
      GainStep(|rest| as real, p.x, p.y, SumX(rest), SumY(rest), SumXY(rest), q.x, q.y);
      hide Gain, Mul;
    }
  }

  lemma {:induction false} SumsStep(rest: seq<Point>, p: Point)
    ensures var ps := rest + [p];
            && SumX(ps) == SumX(rest) + p.x && SumY(ps) == SumY(rest) + p.y
            && SumXX(ps) == SumXX(rest) + Mul(p.x, p.x) && SumXY(ps) == SumXY(rest) + Mul(p.x, p.y)
            && Cross(ps) == Cross(rest) + CrossWith(rest, p)
  {
    assert (rest + [p])[..|rest|] == rest;
  }

  lemma {:induction false} NumStep(n: real, sx: real, sy: real, sxy: real, x: real, y: real)
    ensures Centred(n + 1.0, sxy + Mul(x, y), sx + x, sy + y) == Centred(n, sxy, sx, sy) + Gain(n, x, y, sx, sy, sxy)
  {
    assert (n + 1.0) * (sxy + x * y) == n * sxy + n * (x * y) + sxy + x * y;
    assert (sx + x) * (sy + y) == sx * sy + sx * y + x * sy + x * y;
  }

  lemma {:induction false} NumGains(rest: seq<Point>, p: Point)
    ensures Num(rest + [p]) == Num(rest) + Gain(|rest| as real, p.x, p.y, SumX(rest), SumY(rest), SumXY(rest))
  {
    var ps := rest + [p];
    assert ps[..|rest|] == rest;
    assert |ps| as real == |rest| as real + 1.0;
    NumStep(|rest| as real, SumX(rest), SumY(rest), SumXY(rest), p.x, p.y);
    hide Centred, Gain, SumXX, Cross, CrossWith, Mul;
  }

  /** n Sxy - Sx Sy is the sum over pairs of products of differences. */
  lemma {:induction false} NumIsPairwise(ps: seq<Point>)
    ensures Num(ps) == Cross(ps)
  {
    if ps == [] {
    } else {
      var rest, p := ps[..|ps| - 1], ps[|ps| - 1];
      assert ps == rest + [p];
      NumIsPairwise(rest);
      CrossWithIsSums(rest, p);
      NumGains(rest, p);
      hide SumX, SumY, SumXY, SumXX, CrossWith, Num, Gain;
    }
  }

  lemma {:induction false} TimesSums(ps: seq<Point>)
    ensures SumX(Times(ps)) == SumX(ps) && SumY(Times(ps)) == SumX(ps) && SumXY(Times(ps)) == SumXX(ps)
  {
    if ps == [] {
    } else {
      TimesSums(ps[..|ps| - 1]);
      assert Times(ps)[..|ps| - 1] == Times(ps[..|ps| - 1]);
    }
  }

  /** n Sxx - Sx Sx is the sum over pairs of squared time differences. */
  lemma {:induction false} DenIsPairwise(ps: seq<Point>)
    ensures Den(ps) == Cross(Times(ps))
  {
    TimesSums(ps);
    NumIsPairwise(Times(ps));
  }

  lemma {:induction false} Square(x: real)
    ensures Mul(x, x) >= 0.0
  {
  }

  lemma {:induction false} SquaresWithPositive(ps: seq<Point>, p: Point)
    requires p.y == p.x && forall j :: 0 <= j < |ps| ==> ps[j].y == ps[j].x
    ensures CrossWith(ps, p) >= 0.0
  {
    hide Mul;
    if ps == [] {
    } else {
      SquaresWithPositive(ps[..|ps| - 1], p);
      Square(p.x - ps[|ps| - 1].x);
    }
  }

  lemma {:induction false} SquaresWith(ps: seq<Point>, p: Point, i: nat)
    requires i < |ps| && p.y == p.x && forall j :: 0 <= j < |ps| ==> ps[j].y == ps[j].x
    ensures CrossWith(ps, p) >= Mul(p.x - ps[i].x, p.x - ps[i].x)
  {
    hide Mul;
    var n := |ps| - 1;
    Square(p.x - ps[n].x);
    if i < n {
      SquaresWith(ps[..n], p, i);
    } else {
      SquaresWithPositive(ps[..n], p);
    }
  }

  lemma {:induction false} SquaresPositive(ps: seq<Point>)
    requires forall j :: 0 <= j < |ps| ==> ps[j].y == ps[j].x
    ensures Cross(ps) >= 0.0
  {
    if ps == [] {
    } else {
      SquaresPositive(ps[..|ps| - 1]);
      SquaresWithPositive(ps[..|ps| - 1], ps[|ps| - 1]);
    }
  }

  lemma {:induction false} SquaresAtLeast(ps: seq<Point>, i: nat, j: nat, d: real)
    requires i < j < |ps| && d == ps[j].x - ps[i].x && forall k :: 0 <= k < |ps| ==> ps[k].y == ps[k].x
    ensures Cross(ps) >= Mul(d, d)
  {
    var n := |ps| - 1;
    var rest, p := ps[..n], ps[n];
    assert ps == rest + [p] && rest[i] == ps[i];
    if j < n {
      assert rest[j] == ps[j];
      SquaresAtLeast(rest, i, j, d);
      SquaresWithPositive(rest, p);
    } else {
      SquaresPositive(rest);
      SquaresWith(rest, p, i);
    }
    SumsStep(rest, p);
    hide Cross, CrossWith;
  }

  /** The denominator passes the guard as soon as two samples are a second apart. */
  lemma {:induction false} SecondPassesGuard(ps: seq<Point>, i: nat, j: nat)
    requires i < j < |ps| && ps[j].x - ps[i].x >= 1.0 / 3600.0
    ensures Den(ps) > GUARD
  {
    DenIsPairwise(ps);
    var d := ps[j].x - ps[i].x;
    SquaresAtLeast(Times(ps), i, j, d);
    assert d * d >= (1.0 / 3600.0) * (1.0 / 3600.0);
  }

  // ---- falling and linear series ----

  ghost predicate NonIncreasing(ps: seq<Point>) {
    forall i, j :: 0 <= i < j < |ps| ==> ps[i].x <= ps[j].x && ps[i].y >= ps[j].y
  }

  lemma {:induction false} FallingWith(ps: seq<Point>, p: Point)
    requires forall i :: 0 <= i < |ps| ==> ps[i].x <= p.x && ps[i].y >= p.y
    ensures CrossWith(ps, p) <= 0.0
  {
    if ps == [] {
    } else {
      FallingWith(ps[..|ps| - 1], p);
      var q := ps[|ps| - 1];
      assert (p.x - q.x) * (q.y - p.y) >= 0.0;
      assert (p.x - q.x) * (p.y - q.y) == -((p.x - q.x) * (q.y - p.y));
    }
  }

  /** A series that never rises has no positive numerator. */
  lemma {:induction false} FallingNum(ps: seq<Point>)
    requires NonIncreasing(ps)
    ensures Num(ps) <= 0.0
  {
    NumIsPairwise(ps);
    if ps == [] {
    } else {
      FallingNum(ps[..|ps| - 1]);
      NumIsPairwise(ps[..|ps| - 1]);
      FallingWith(ps[..|ps| - 1], ps[|ps| - 1]);
    }
  }

  ghost predicate OnLine(ps: seq<Point>, c: real, r: real) {
    forall i :: 0 <= i < |ps| ==> ps[i].y == c - r * ps[i].x
  }

  function LineY(n: real, c: real, r: real, sx: real): real { n * c - r * sx }

  function LineXY(c: real, r: real, sx: real, sxx: real): real { c * sx - r * sxx }

  lemma {:induction false} LinearStep(n: real, c: real, r: real, sx: real, sxx: real, x: real)
    ensures LineY(n, c, r, sx) + (c - r * x) == LineY(n + 1.0, c, r, sx + x)
    ensures LineXY(c, r, sx, sxx) + Mul(x, c - r * x) == LineXY(c, r, sx + x, sxx + Mul(x, x))
  {
    assert x * (c - r * x) == c * x - r * (x * x);
  }

  lemma {:induction false} NothingIsLinear(c: real, r: real)
    ensures LineY(0.0, c, r, 0.0) == 0.0 && LineXY(c, r, 0.0, 0.0) == 0.0
  {
  }

  lemma {:induction false} LinearSums(ps: seq<Point>, c: real, r: real)
    requires OnLine(ps, c, r)
    ensures SumY(ps) == LineY(|ps| as real, c, r, SumX(ps)) && SumXY(ps) == LineXY(c, r, SumX(ps), SumXX(ps))
  {
    if ps == [] {
      NothingIsLinear(c, r);
    } else {
      var rest, p := ps[..|ps| - 1], ps[|ps| - 1];
      assert OnLine(rest, c, r);
      LinearSums(rest, c, r);
      assert ps == rest + [p];
      SumsStep(rest, p);
      hide SumX, SumY, SumXX, SumXY, Cross, CrossWith;
      assert |ps| as real == |rest| as real + 1.0;
      assert p.y == c - r * p.x;
      LinearStep(|rest| as real, c, r, SumX(rest), SumXX(rest), p.x);
      hide OnLine, LineY, LineXY, Mul;
    }
  }

  lemma {:induction false} LineNum(n: real, c: real, r: real, sx: real, sxx: real)
    ensures Centred(n, LineXY(c, r, sx, sxx), sx, LineY(n, c, r, sx)) == -r * Centred(n, sxx, sx, sx)
  {
    assert n * (c * sx - r * sxx) == n * (c * sx) - r * (n * sxx);
    assert sx * (n * c - r * sx) == n * (c * sx) - r * (sx * sx);
  }

  /** On a line of slope -r the slope comes out exactly. */
  lemma {:induction false} LinearSlope(ps: seq<Point>, c: real, r: real)
    requires OnLine(ps, c, r)
    ensures Num(ps) == -r * Den(ps)
  {
    hide SumX, SumY, SumXY, SumXX, OnLine, Centred, LineY, LineXY;
    LinearSums(ps, c, r);
    LineNum(|ps| as real, c, r, SumX(ps), SumXX(ps));
  }

  // ---- least squares ----

  /** Sum of squared residuals of the line a + b x. */
  function Sse(ps: seq<Point>, a: real, b: real): real {
    if ps == [] then 0.0 else Sse(ps[..|ps| - 1], a, b) + Squared(Residual(ps[|ps| - 1], a, b))
  }

  function Residual(p: Point, a: real, b: real): real { p.y - (a + b * p.x) }

  function Squared(x: real): real { x * x }

  function Weight(p: Point, u: real, v: real): real { u + v * p.x }

  /** Sum of w * residual, with w = u + v x. */
  function Weighted(ps: seq<Point>, a: real, b: real, u: real, v: real): real {
    if ps == [] then 0.0
    else Weighted(ps[..|ps| - 1], a, b, u, v) + Mul(Weight(ps[|ps| - 1], u, v), Residual(ps[|ps| - 1], a, b))
  }

  lemma {:induction false} ResidualShift(p: Point, a: real, b: real, u: real, v: real)
    ensures Squared(Residual(p, a - u, b - v)) ==
              Squared(Residual(p, a, b)) + 2.0 * Mul(Weight(p, u, v), Residual(p, a, b)) + Squared(Weight(p, u, v))
  {
    var r, w := Residual(p, a, b), u + v * p.x;
    assert Residual(p, a - u, b - v) == r + w;
    assert (r + w) * (r + w) == r * r + 2.0 * (w * r) + w * w;
  }

  /** Any other line does worse by a sum of squares, up to the weighted residuals. */
  lemma {:induction false} SseShift(ps: seq<Point>, a: real, b: real, u: real, v: real)
    ensures Sse(ps, a - u, b - v) >= Sse(ps, a, b) + 2.0 * Weighted(ps, a, b, u, v)
  {
    hide Squared, Residual, Mul, Weight;
    if ps == [] {
    } else {
      SseShift(ps[..|ps| - 1], a, b, u, v);
      ResidualShift(ps[|ps| - 1], a, b, u, v);
      SquaredPositive(Weight(ps[|ps| - 1], u, v));
    }
  }

  lemma {:induction false} SquaredPositive(x: real)
    ensures Squared(x) >= 0.0
  {
  }

  /** u (Sy - n a - b Sx) + v (Sxy - a Sx - b Sxx). */
  function Normal(n: real, sx: real, sy: real, sxx: real, sxy: real, a: real, b: real, u: real, v: real): real {
    u * (sy - n * a - b * sx) + v * (sxy - a * sx - b * sxx)
  }

  lemma {:induction false} NormalStep(n: real, sx: real, sy: real, sxx: real, sxy: real, a: real, b: real, u: real, v: real, p: Point)
    ensures Normal(n + 1.0, sx + p.x, sy + p.y, sxx + Mul(p.x, p.x), sxy + Mul(p.x, p.y), a, b, u, v)
            == Normal(n, sx, sy, sxx, sxy, a, b, u, v) + Mul(Weight(p, u, v), Residual(p, a, b))
  {
    var x, y := p.x, p.y;
    var r := y - (a + b * x);
    assert sy + y - (n + 1.0) * a - b * (sx + x) == (sy - n * a - b * sx) + r;
    assert x * r == x * y - a * x - b * (x * x);
    assert sxy + x * y - a * (sx + x) - b * (sxx + x * x) == (sxy - a * sx - b * sxx) + x * r;
    assert u * ((sy - n * a - b * sx) + r) == u * (sy - n * a - b * sx) + u * r;
    assert v * ((sxy - a * sx - b * sxx) + x * r) == v * (sxy - a * sx - b * sxx) + v * (x * r);
    assert (u + v * x) * r == u * r + v * (x * r);
  }

  lemma {:induction false} WeightedIsNormal(ps: seq<Point>, a: real, b: real, u: real, v: real)
    ensures Weighted(ps, a, b, u, v) == Normal(|ps| as real, SumX(ps), SumY(ps), SumXX(ps), SumXY(ps), a, b, u, v)
  {
    if ps == [] {
    } else {
      var rest, p := ps[..|ps| - 1], ps[|ps| - 1];
      assert ps == rest + [p];
      WeightedIsNormal(rest, a, b, u, v);
      SumsStep(rest, p);
      assert |ps| as real == |rest| as real + 1.0;
      NormalStep(|rest| as real, SumX(rest), SumY(rest), SumXX(rest), SumXY(rest), a, b, u, v, p);
      hide SumX, SumY, SumXX, SumXY, Cross, CrossWith, Normal, Mul, Residual, Weight;
    }
  }

  lemma {:induction false} NormalVanishes(n: real, sx: real, sy: real, sxx: real, sxy: real, a: real, b: real, u: real, v: real)
    requires n > 0.0 && b * (n * sxx - sx * sx) == n * sxy - sx * sy && n * a == sy - b * sx
    ensures Normal(n, sx, sy, sxx, sxy, a, b, u, v) == 0.0
  {
    assert n * (sxy - a * sx - b * sxx) == n * sxy - (n * a) * sx - b * (n * sxx);
    assert (sy - b * sx) * sx == sx * sy - b * (sx * sx);
    assert n * (sxy - a * sx - b * sxx) == 0.0;
    assert sxy - a * sx - b * sxx == 0.0;
    assert sy - n * a - b * sx == 0.0;
  }

  /** Where the line of slope b through the means meets the axis. */
  function Offset(sx: real, sy: real, n: real, b: real): real
    requires n != 0.0
  {
    (sy - b * sx) / n
  }

  /** The slope with its intercept is the least-squares line: no line does better. */
  lemma {:induction false} SlopeIsLeastSquares(ps: seq<Point>, a: real, b: real, a': real, b': real)
    requires ps != [] && Den(ps) > 0.0 && b == Num(ps) / Den(ps) && a == Offset(SumX(ps), SumY(ps), |ps| as real, b)
    ensures Sse(ps, a, b) <= Sse(ps, a', b')
  {
    var n := |ps| as real;
    var u, v := a - a', b - b';
    SseShift(ps, a, b, u, v);
    WeightedIsNormal(ps, a, b, u, v);
    hide Sse, Weighted, SumX, SumY, SumXX, SumXY, Normal;
    assert b * Den(ps) == Num(ps);
    assert n * a == SumY(ps) - b * SumX(ps);
    NormalVanishes(n, SumX(ps), SumY(ps), SumXX(ps), SumXY(ps), a, b, u, v);
    assert a - u == a' && b - v == b';
  }
}
