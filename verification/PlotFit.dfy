/**
 Where the points of a fitted series are (pkg/asciigraph/utils.go), in whole numbers: what
 interpolation to a width does to the data, and where the values of a plot are on its rows.
 */
module PlotFit {
  import opened Options
  import opened PlotScale
  import opened Plot

  // ---------------------------------------------------------------- fitting

  lemma FloorIs(x: real, q: int)
    requires q as real <= x < q as real + 1.0
    ensures x.Floor == q
  {
  }

  lemma Shares(x: real, y: real, d: real)
    requires d > 0.0 && x * d <= y * d
    ensures x <= y
  {
    assert (x - y) * d <= 0.0;
  }

  lemma SharesLess(x: real, y: real, d: real)
    requires d > 0.0 && x * d < y * d
    ensures x < y
  {
    assert (y - x) * d > 0.0;
  }

  /** A fraction of whole numbers by its quotient and remainder. */
  lemma Fraction(n: nat, d: nat, x: real)
    requires d > 0 && x * d as real == n as real
    ensures x.Floor == n / d && (x - x.Floor as real) * d as real == (n % d) as real
    ensures Ceil(x) == if n % d == 0 then n / d else n / d + 1
  {
    var q, m := n / d, n % d;
    assert n as real == q as real * d as real + m as real by {
      assert n == q * d + m;
    }
    Shares(q as real, x, d as real);
    assert (x - q as real) * d as real == m as real;
    SharesLess(x - q as real, 1.0, d as real);
    FloorIs(x, q);
  }

  /** i times n steps. */
  function Steps(n: nat, i: nat): nat {
    i * n
  }

  lemma SpringTimes(n: nat, fit: nat, i: nat)
    requires n >= 1 && fit >= 2
    ensures Spring(n, fit, i) * (fit - 1) as real == Steps(n - 1, i) as real
  {
    var d := (fit - 1) as real;
    var f := (n - 1) as real / d;
    assert f * d == (n - 1) as real;
    assert i as real * f * d == i as real * (f * d);
    assert (i * (n - 1)) as real == i as real * (n - 1) as real;
  }

  lemma LineTimes(a: real, b: real, t: real, m: real, d: real)
    requires t * d == m
    ensures (a + (b - a) * t) * d == a * (d - m) + b * m
  {
    assert (b - a) * t * d == (b - a) * (t * d);
  }

  /** Where the point i falls when n steps are made of d: after so many whole steps, and so many d-ths of the next. */
  function Whole(n: nat, d: nat, i: nat): nat
    requires d > 0
  {
    Steps(n, i) / d
  }

  function Part(n: nat, d: nat, i: nat): (m: nat)
    requires d > 0
    ensures m < d
  {
    Steps(n, i) % d
  }

  lemma Divided(n: nat, d: nat, i: nat)
    requires d > 0
    ensures Steps(n, i) as real == Whole(n, d, i) as real * d as real + Part(n, d, i) as real
  {
    hide Steps;
    assert Steps(n, i) == Whole(n, d, i) * d + Part(n, d, i);
  }

  lemma StepsWithin(n: nat, d: nat, i: nat)
    requires i <= d
    ensures Steps(n, i) as real <= n as real * d as real
    ensures i == d ==> Steps(n, i) as real == n as real * d as real
    ensures i == 0 ==> Steps(n, i) == 0
  {
    assert d * n == i * n + (d - i) * n;
    assert (d * n) as real == n as real * d as real;
  }

  lemma WholeAndPart(n: nat, d: nat, i: nat)
    requires d > 0 && i <= d
    ensures Whole(n, d, i) + (if Part(n, d, i) > 0 then 1 else 0) <= n
    ensures i == 0 ==> Whole(n, d, i) == 0 && Part(n, d, i) == 0
    ensures i == d ==> Whole(n, d, i) == n && Part(n, d, i) == 0
  {
    hide Steps;
    StepsWithin(n, d, i);
    Divided(n, d, i);
    if i == d {
      Fraction(Steps(n, i), d, n as real);
    }
    hide Whole, Part;
    Shares(Whole(n, d, i) as real, n as real, d as real);
  }

  /** p lies m d-ths of the way from left to right, and is there if these are, right being needed only for m > 0. */
  predicate Lies(p: Point, m: nat, d: nat, left: Point, right: Point) {
    && (p.Some? <==> left.Some? && (m > 0 ==> right.Some?))
    && (p.Some? ==>
          p.value * d as real == left.value * (d - m) as real + if m > 0 then right.value * m as real else 0.0)
  }

  function PointOr(data: seq<Point>, j: nat): Point {
    if j < |data| then data[j] else None
  }

  lemma InnerPoint(data: seq<Point>, fit: nat, i: nat, q: nat, m: nat)
    requires |data| >= 1 && fit >= 2 && i < fit - 1 && m < fit - 1
    requires var x := Spring(|data|, fit, i);
      x.Floor == q && Ceil(x) == (if m == 0 then q else q + 1) && (x - q as real) * (fit - 1) as real == m as real
    ensures Lies(PointAt(data, fit, i), m, fit - 1, PointOr(data, q), PointOr(data, q + 1))
  {
    SpringWithin(|data|, fit, i);
    var x, d := Spring(|data|, fit, i), (fit - 1) as real;
    var r := if m > 0 then q + 1 else q;
    if data[q].Some? && data[r].Some? {
      LineTimes(data[q].value, data[r].value, x - q as real, m as real, d);
    }
    hide Spring, Ceil;
  }

  lemma InnerPlace(n: nat, d: nat, i: nat, x: real)
    requires d > 0 && x * d as real == Steps(n, i) as real
    ensures x.Floor == Whole(n, d, i) && (x - x.Floor as real) * d as real == Part(n, d, i) as real
    ensures Ceil(x) == if Part(n, d, i) == 0 then Whole(n, d, i) else Whole(n, d, i) + 1
  {
    hide Steps;
    Fraction(Steps(n, i), d, x);
  }

  lemma LiesThere(p: Point, d: nat, right: Point)
    ensures Lies(p, 0, d, p, right)
  {
  }

  /** The point i of fit points lies exactly where equal steps from the first place of the data to the last lead. */
  lemma FitExactly(data: seq<Point>, fit: nat, i: nat)
    requires |data| >= 1 && fit >= 2 && i < fit
    ensures var q, m := Whole(|data| - 1, fit - 1, i), Part(|data| - 1, fit - 1, i);
      && q + (if m > 0 then 1 else 0) < |data|
      && Lies(Fitted(data, fit)[i], m, fit - 1, PointOr(data, q), PointOr(data, q + 1))
  {
    hide Spring, PointAt, Lies, Whole, Part, Ceil, Steps;
    var n, d := |data| - 1, fit - 1;
    WholeAndPart(n, d, i);
    if 0 < i < d {
      SpringTimes(|data|, fit, i);
      InnerPlace(n, d, i, Spring(|data|, fit, i));
      assert Fitted(data, fit)[i] == PointAt(data, fit, i);
      InnerPoint(data, fit, i, Whole(n, d, i), Part(n, d, i));
    } else {
      LiesThere(Fitted(data, fit)[i], d, PointOr(data, Whole(n, d, i) + 1));
    }
  }

  lemma OnLine(a: real, b: real, q: real, m: real, d: real)
    ensures (a + b * q) * (d - m) + (a + b * (q + 1.0)) * m == a * d + b * (q * d + m)
  {
    assert (a + b * q) * (d - m) + (a + b * (q + 1.0)) * m == (a + b * q) * d + b * m;
    assert b * q * d == b * (q * d);
  }

  function LineAt(a: real, b: real, x: real): real {
    a + b * x
  }

  /** The point j of the data is on the line a + b * x at x = j. */
  predicate Straight(data: seq<Point>, a: real, b: real) {
    forall j :: 0 <= j < |data| ==> data[j] == Some(LineAt(a, b, j as real))
  }

  /** p is on the line at x = k / d. */
  predicate OnLineAt(p: Point, a: real, b: real, k: nat, d: nat) {
    p.Some? && p.value * d as real == a * d as real + b * k as real
  }

  lemma {:induction false} OnLineThere(p: Point, m: nat, d: nat, left: Point, right: Point,
                                       a: real, b: real, q: nat, k: nat)
    requires m < d && Lies(p, m, d, left, right) && k as real == q as real * d as real + m as real
    requires left == Some(LineAt(a, b, q as real)) && (m > 0 ==> right == Some(LineAt(a, b, (q + 1) as real)))
    ensures OnLineAt(p, a, b, k, d)
  {
    OnLine(a, b, q as real, m as real, d as real);
    assert (d - m) as real == d as real - m as real && (q + 1) as real == q as real + 1.0;
    if m == 0 {
      assert (a + b * q as real) * d as real == a * d as real + b * (q as real * d as real);
    }
  }

  /** Data on a straight line are drawn out, or squeezed, to the same straight line. */
  lemma StraightLine(data: seq<Point>, fit: nat, i: nat, a: real, b: real)
    requires |data| >= 1 && fit >= 2 && i < fit && Straight(data, a, b)
    ensures OnLineAt(Fitted(data, fit)[i], a, b, Steps(|data| - 1, i), fit - 1)
  {
    hide Fitted, Whole, Part, Lies, LineAt, OnLineAt;
    var n, d := |data| - 1, fit - 1;
    var q, m := Whole(n, d, i), Part(n, d, i);
    FitExactly(data, fit, i);
    WholeAndPart(n, d, i);
    Divided(n, d, i);
    OnLineThere(Fitted(data, fit)[i], m, d, PointOr(data, q), PointOr(data, q + 1), a, b, q, Steps(n, i));
  }

  /** A series plotted at a width of 2 or more: equal steps through the series filled up to the longest. */
  lemma PreparedExactly(series: seq<Point>, longest: nat, width: nat, i: nat)
    requires MayPrepare(longest, |series|, width) && width >= 2 && i < width
    ensures var q, m := Whole(longest - 1, width - 1, i), Part(longest - 1, width - 1, i);
      && |Prepared(series, longest, width)| == width
      && Lies(Prepared(series, longest, width)[i], m, width - 1, PointOr(series, q), PointOr(series, q + 1))
  {
    hide Fitted, Whole, Part, Lies;
    var full := series + seq(longest - |series|, _ => None);
    FitExactly(full, width, i);
    assert forall j: nat :: PointOr(full, j) == PointOr(series, j);
  }

  /** And with a width of 1 or without one. */
  lemma PreparedShort(series: seq<Point>, longest: nat)
    ensures MayPrepare(longest, |series|, 0) ==> Prepared(series, longest, 0) == series
    ensures MayPrepare(longest, |series|, 1) ==>
      Prepared(series, longest, 1) == [PointOr(series, 0), PointOr(series, longest - 1)]
  {
  }

  // ---------------------------------------------------------------- the longest, and the frame

  lemma {:induction false} LongestExactly(data: seq<seq<Point>>)
    ensures forall i :: 0 <= i < |data| ==> |data[i]| <= Longest(data)
    ensures data != [] ==> exists i :: 0 <= i < |data| && |data[i]| == Longest(data)
    ensures data == [] ==> Longest(data) == 0
  {
    if data != [] {
      var n := |data| - 1;
      LongestExactly(data[..n]);
      if |data[n]| <= Longest(data[..n]) && n > 0 {
        var i :| 0 <= i < n && |data[..n][i]| == Longest(data[..n]);
        assert data[i] == data[..n][i];
      } else {
        assert |data[n]| == Longest(data);
      }
    }
  }
}
