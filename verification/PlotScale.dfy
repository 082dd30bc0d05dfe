/**
 The arithmetic of a plot (pkg/asciigraph/utils.go) over exact reals, a missing value (NaN)
 being None: rounding, extremes, and interpolation to a given number of points.
 */
module PlotScale {
  import opened Options

  type Point = Option<real>

  // ---------------------------------------------------------------- rounding

  function Ceil(x: real): int {
    if x == x.Floor as real then x.Floor else x.Floor + 1
  }

  function Round(input: real): int {
    var sign := if input < 0.0 then -1 else 1;
    var x := if input < 0.0 then -input else input;
    var decimal := x - x.Floor as real;
    sign * if decimal >= 0.5 then Ceil(x) else x.Floor
  }

  /** Round gives the nearest integer, and of two equally near the one away from zero. */
  lemma RoundNearest(x: real, n: int)
    ensures n == Round(x) <==>
      if x >= 0.0 then n as real - 0.5 <= x < n as real + 0.5 else n as real - 0.5 < x <= n as real + 0.5
  {
  }

  lemma RoundOdd(x: real)
    ensures Round(-x) == -Round(x)
  {
  }

  lemma RoundMonotone(x: real, y: real)
    requires x <= y
    ensures Round(x) <= Round(y)
  {
    RoundNearest(x, Round(x));
    RoundNearest(y, Round(y));
  }

  /** A shift by a whole number shifts the rounded value by as much, or by one more when
      a half below zero comes to lie above zero. */
  lemma RoundShift(x: real, h: nat)
    ensures Round(x + h as real) - Round(x) ==
      if x < 0.0 < x + h as real && x + 0.5 == (x + 0.5).Floor as real then h + 1 else h
  {
    hide Round, Ceil;
    var n, y := Round(x), x + h as real;
    RoundNearest(x, n);
    RoundNearest(y, n + h);
    RoundNearest(y, n + h + 1);
    assert (n + h) as real == n as real + h as real;
    assert x + 0.5 == (x + 0.5).Floor as real && x < 0.0 ==> n as real == x - 0.5 by {
      if x + 0.5 == (x + 0.5).Floor as real && x < 0.0 {
        RoundNearest(x, (x + 0.5).Floor - 1);
      }
    }
    assert n as real + 0.5 == x ==> x + 0.5 == (n + 1) as real;
  }

  // ---------------------------------------------------------------- extremes

  /** The values that are there. */
  function Values(v: seq<Point>): set<real> {
    set e | e in v && e.Some? :: e.value
  }

  predicate IsLeast(min: Point, s: set<real>) {
    match min
    case None => s == {}
    case Some(m) => m in s && forall e :: e in s ==> m <= e
  }

  predicate IsGreatest(max: Point, s: set<real>) {
    match max
    case None => s == {}
    case Some(m) => m in s && forall e :: e in s ==> e <= m
  }

  /** No value is below a minimum, or above a maximum, that is still infinite. */
  predicate Below(e: Point, min: Point) {
    e.Some? && (min == None || e.value < min.value)
  }

  predicate Above(e: Point, max: Point) {
    e.Some? && (max == None || e.value > max.value)
  }

  /** Missing values compare with nothing and are passed over. */
  method MinMax(v: seq<Point>) returns (min: Point, max: Point)
    ensures IsLeast(min, Values(v)) && IsGreatest(max, Values(v))
  {
    min, max := None, None;
    for k := 0 to |v|
      invariant IsLeast(min, Values(v[..k])) && IsGreatest(max, Values(v[..k]))
    {
      var e := v[k];
      assert v[..k + 1] == v[..k] + [e];
      assert Values(v[..k + 1]) == Values(v[..k]) + if e.Some? then {e.value} else {};
      if Below(e, min) {
        min := e;
      }
      if Above(e, max) {
        max := e;
      }
    }
    assert v[..|v|] == v;
  }

  // ---------------------------------------------------------------- interpolation

  function LinearInterpolate(before: Point, after: Point, atPoint: real): Point {
    if before == None || after == None then None
    else Some(before.value + (after.value - before.value) * atPoint)
  }

  /** Where the point i of fit points falls among n. */
  function Spring(n: nat, fit: nat, i: nat): real
    requires n >= 1 && fit >= 2
  {
    i as real * ((n - 1) as real / (fit - 1) as real)
  }

  lemma SpringWithin(n: nat, fit: nat, i: nat)
    requires n >= 1 && fit >= 2 && i < fit - 1
    ensures 0.0 <= Spring(n, fit, i)
    ensures 0 <= Spring(n, fit, i).Floor <= Ceil(Spring(n, fit, i)) <= n - 1
  {
    var s, d, m := Spring(n, fit, i), (fit - 1) as real, (n - 1) as real;
    var f := m / d;
    assert f * d == m && f >= 0.0;
    assert (i as real) * f <= d * f by {
      assert (d - i as real) * f >= 0.0;
    }
    assert i as real * f >= 0.0;
    assert 0.0 <= s <= m;
  }

  /** The point i of data drawn out, or squeezed, to fit points. */
  function PointAt(data: seq<Point>, fit: nat, i: nat): Point
    requires |data| >= 1 && fit >= 2 && i < fit - 1
  {
    SpringWithin(|data|, fit, i);
    var s := Spring(|data|, fit, i);
    LinearInterpolate(data[s.Floor], data[Ceil(s)], s - s.Floor as real)
  }

  /** Data of fit points, the first and the last as they were. A fit of 1 gives two points. */
  function Fitted(data: seq<Point>, fit: nat): (r: seq<Point>)
    requires |data| >= 1 && fit >= 1
    ensures |r| == (if fit < 2 then 2 else fit) && r[0] == data[0] && r[|r| - 1] == data[|data| - 1]
    ensures forall i :: 0 < i < fit - 1 ==> r[i] == PointAt(data, fit, i)
  {
    [data[0]] + seq(if fit < 2 then 0 else fit - 2, i requires 0 <= i < fit - 2 => PointAt(data, fit, i + 1))
      + [data[|data| - 1]]
  }

  method InterpolateArray(data: seq<Point>, fitCount: nat) returns (r: seq<Point>)
    requires |data| >= 1 && fitCount >= 1
    ensures r == Fitted(data, fitCount)
  {
    r := [data[0]];
    if fitCount >= 2 {
      var springFactor := (|data| - 1) as real / (fitCount - 1) as real;
      for i := 1 to fitCount - 1
        invariant |r| == i && r[0] == data[0]
        invariant forall j :: 0 < j < i ==> r[j] == PointAt(data, fitCount, j)
      {
        SpringWithin(|data|, fitCount, i);
        var spring := i as real * springFactor;
        assert spring == Spring(|data|, fitCount, i);
        var before, after := spring.Floor, Ceil(spring);
        r := r + [LinearInterpolate(data[before], data[after], spring - before as real)];
      }
    }
    r := r + [data[|data| - 1]];
  }

  predicate Between(x: real, a: real, b: real) {
    if a <= b then a <= x <= b else b <= x <= a
  }

  lemma ProductNotNegative(a: real, b: real)
    requires a >= 0.0 && b >= 0.0
    ensures a * b >= 0.0
  {
  }

  lemma LineBetween(a: real, b: real, t: real)
    requires 0.0 <= t <= 1.0
    ensures Between(a + (b - a) * t, a, b)
  {
    if a <= b {
      ProductNotNegative(b - a, t);
      ProductNotNegative(b - a, 1.0 - t);
      assert (b - a) * (1.0 - t) == (b - a) - (b - a) * t;
    } else {
      ProductNotNegative(a - b, t);
      ProductNotNegative(a - b, 1.0 - t);
      assert (a - b) * (1.0 - t) == (a - b) - (a - b) * t;
      assert (b - a) * t == -((a - b) * t);
    }
  }

  lemma LinearBetween(before: Point, after: Point, atPoint: real)
    requires 0.0 <= atPoint <= 1.0
    ensures var p := LinearInterpolate(before, after, atPoint);
      && (p == None <==> before == None || after == None)
      && (p.Some? ==> Between(p.value, before.value, after.value))
  {
    if before.Some? && after.Some? {
      LineBetween(before.value, after.value, atPoint);
    }
  }

  /** The two places of n that the point i of fit points lies between. */
  function Around(n: nat, fit: nat, i: nat): (places: (nat, nat))
    requires n >= 1 && fit >= 2 && i < fit
    ensures places.0 <= places.1 <= places.0 + 1 && places.1 < n
  {
    if i == 0 then (0, 0)
    else if i == fit - 1 then (n - 1, n - 1)
    else
      SpringWithin(n, fit, i);
      (Spring(n, fit, i).Floor, Ceil(Spring(n, fit, i)))
  }

  /** Every point lies between two points of the data that are the same or adjacent,
      and is missing exactly when one of these is. */
  lemma FitAround(data: seq<Point>, fit: nat, i: nat)
    requires |data| >= 1 && fit >= 1 && i < if fit < 2 then 2 else fit
    ensures var p, places := Fitted(data, fit)[i], Around(|data|, if fit < 2 then 2 else fit, i);
      && (p == None <==> data[places.0] == None || data[places.1] == None)
      && (p.Some? ==> Between(p.value, data[places.0].value, data[places.1].value))
  {
    if 0 < i < fit - 1 {
      SpringWithin(|data|, fit, i);
      var s := Spring(|data|, fit, i);
      assert Fitted(data, fit)[i] == PointAt(data, fit, i);
      LinearBetween(data[s.Floor], data[Ceil(s)], s - s.Floor as real);
      hide Spring, Between, LinearInterpolate, Ceil;
    }
  }

  /** Values within limits stay within them. */
  lemma FitWithin(data: seq<Point>, fit: nat, low: real, high: real)
    requires |data| >= 1 && fit >= 2
    requires forall e :: e in Values(data) ==> low <= e <= high
    ensures forall e :: e in Values(Fitted(data, fit)) ==> low <= e <= high
  {
    var r := Fitted(data, fit);
    forall e | e in Values(r)
      ensures low <= e <= high
    {
      var i :| 0 <= i < |r| && r[i] == Some(e);
      FitAround(data, fit, i);
      var places := Around(|data|, fit, i);
      assert data[places.0] in data && data[places.1] in data;
      assert data[places.0].value in Values(data) && data[places.1].value in Values(data);
      hide Fitted, Values, Around;
    }
  }

  lemma DivideSelf(m: real)
    requires m > 0.0
    ensures m / m == 1.0
  {
    var q := m / m;
    assert q * m == m;
  }

  lemma SpringSame(n: nat, i: nat)
    requires n >= 2
    ensures Spring(n, n, i) == i as real
  {
    DivideSelf((n - 1) as real);
  }

  lemma LinearSame(p: Point)
    ensures LinearInterpolate(p, p, 0.0) == p
  {
  }

  /** Drawn out to its own length the data stays as it is. */
  lemma FitSame(data: seq<Point>)
    requires |data| >= 2
    ensures Fitted(data, |data|) == data
  {
    var r := Fitted(data, |data|);
    forall i | 0 < i < |data| - 1
      ensures r[i] == data[i]
    {
      SpringSame(|data|, i);
      LinearSame(data[i]);
      hide Spring, LinearInterpolate;
      assert r[i] == PointAt(data, |data|, i);
    }
  }
}
