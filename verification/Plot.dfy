/**
 A plot as a grid of glyphs (pkg/asciigraph/asciigraph.go): how many rows it has, which
 cells an axis and the lines of the series fill, and that each of them is in the grid.
 */
module Plot {
  import opened Options
  import opened PlotScale

  /** The two turns of a falling line are where it enters and where it leaves the column,
      and so are those of a rising one. */
  datatype Glyph =
    | Space | Text(text: string) | Axis | First
    | Ends | Starts | Flat | FallsIn | FallsOut | RisesIn | RisesOut | Bar

  /** low is the level of the bottom row as a rounded value. */
  datatype Frame = Frame(rows: nat, ratio: real, low: int, offset: nat, width: nat)

  // ---------------------------------------------------------------- scaling

  function Abs(n: int): nat {
    if n < 0 then -n else n
  }

  function Ratio(interval: real, height: nat): real
    requires interval != 0.0
  {
    height as real / interval
  }

  function Scale(v: real, ratio: real): real {
    v * ratio
  }

  function FrameFor(minimum: real, maximum: real, height: nat, offset: int, lenMax: nat): (f: Frame)
    requires minimum <= maximum && height > 0
    ensures f.offset >= 1
  {
    var interval := maximum - minimum;
    var margin := if offset <= 0 then 3 else offset;
    var ratio := if interval != 0.0 then Ratio(interval, height) else 1.0;
    var low, high := Round(Scale(minimum, ratio)), Round(Scale(maximum, ratio));
    Frame(Abs(high - low), ratio, low, margin, lenMax + margin)
  }

  function Level(v: real, f: Frame): int {
    Round(Scale(v, f.ratio)) - f.low
  }

  lemma Scaled(minimum: real, maximum: real, height: nat)
    requires minimum < maximum && height > 0
    ensures var ratio := Ratio(maximum - minimum, height);
      ratio > 0.0 && Scale(maximum, ratio) == Scale(minimum, ratio) + height as real
  {
    var d := maximum - minimum;
    var ratio := height as real / d;
    assert ratio * d == height as real;
    assert ratio > 0.0 by {
      if ratio <= 0.0 {
        ProductNotNegative(-ratio, d);
      }
    }
    assert maximum * ratio == minimum * ratio + d * ratio;
  }

  /** The scaled minimum lies a half below a whole number, and zero between minimum and maximum. */
  predicate HalfBelowZero(minimum: real, maximum: real, height: nat)
    requires minimum < maximum
  {
    var x := Scale(minimum, Ratio(maximum - minimum, height));
    minimum < 0.0 < maximum && x + 0.5 == (x + 0.5).Floor as real
  }

  lemma SameSign(v: real, ratio: real)
    requires ratio > 0.0
    ensures v < 0.0 <==> Scale(v, ratio) < 0.0
    ensures v > 0.0 <==> Scale(v, ratio) > 0.0
  {
  }

  /** The plot is as high as asked for, or one row more in one case exactly; a constant takes one row. */
  lemma RowsExact(minimum: real, maximum: real, height: nat, offset: int, lenMax: nat)
    requires minimum <= maximum && height > 0
    ensures FrameFor(minimum, maximum, height, offset, lenMax).rows ==
      if minimum == maximum then 0
      else if HalfBelowZero(minimum, maximum, height) then height + 1 else height
  {
    if minimum < maximum {
      Scaled(minimum, maximum, height);
      var ratio := Ratio(maximum - minimum, height);
      var x := Scale(minimum, ratio);
      RoundShift(x, height);
      SameSign(minimum, ratio);
      SameSign(maximum, ratio);
      hide Round, Ratio, Scale;
    }
  }

  /** Values from -1/2 to 1/2 asked for on one row take two. */
  lemma ExtraRow()
    ensures HalfBelowZero(-0.5, 0.5, 1) && FrameFor(-0.5, 0.5, 1, 3, 2).rows == 2
  {
    assert Ratio(1.0, 1) == 1.0;
    assert Scale(-0.5, 1.0) == -0.5;
    RowsExact(-0.5, 0.5, 1, 3, 2);
  }

  lemma ScaleMonotone(a: real, b: real, ratio: real)
    requires a <= b && ratio > 0.0
    ensures Scale(a, ratio) <= Scale(b, ratio)
  {
    ProductNotNegative(b - a, ratio);
  }

  /** Every value between the extremes has its level in the plot. */
  lemma LevelsFit(minimum: real, maximum: real, height: nat, offset: int, lenMax: nat, v: real)
    requires minimum <= v <= maximum && height > 0
    ensures var f := FrameFor(minimum, maximum, height, offset, lenMax); 0 <= Level(v, f) <= f.rows
  {
    var f := FrameFor(minimum, maximum, height, offset, lenMax);
    if minimum < maximum {
      Scaled(minimum, maximum, height);
    }
    ScaleMonotone(minimum, v, f.ratio);
    ScaleMonotone(v, maximum, f.ratio);
    RoundMonotone(Scale(minimum, f.ratio), Scale(v, f.ratio));
    RoundMonotone(Scale(v, f.ratio), Scale(maximum, f.ratio));
    hide Round, Ratio, Scale;
  }

  lemma ScaleOdd(v: real, ratio: real)
    ensures Scale(-v, ratio) == -Scale(v, ratio)
  {
  }

  /** The plot of the negated values is as high, and upside down. */
  lemma UpsideDown(minimum: real, maximum: real, height: nat, offset: int, lenMax: nat, v: real)
    requires minimum <= maximum && height > 0
    ensures var f := FrameFor(minimum, maximum, height, offset, lenMax);
      var f' := FrameFor(-maximum, -minimum, height, offset, lenMax);
      f'.rows == f.rows && Level(-v, f') == f.rows - Level(v, f)
  {
    hide Round, Ratio, Scale;
    var f := FrameFor(minimum, maximum, height, offset, lenMax);
    assert -minimum - -maximum == maximum - minimum;
    LevelsFit(minimum, maximum, height, offset, lenMax, maximum);
    RoundOdd(Scale(minimum, f.ratio));
    RoundOdd(Scale(maximum, f.ratio));
    RoundOdd(Scale(v, f.ratio));
    ScaleOdd(minimum, f.ratio);
    ScaleOdd(maximum, f.ratio);
    ScaleOdd(v, f.ratio);
  }

  // ---------------------------------------------------------------- what is drawn

  /** What a column of a line shows: nothing, the end of a line before or after a gap,
      or a line that enters at one level and leaves at another. */
  datatype Stroke = Nothing | Stub(y: int, glyph: Glyph) | Line(y0: int, y1: int)

  function StrokeAt(series: seq<Point>, x: nat, f: Frame): Stroke
    requires x + 1 < |series|
  {
    var d0, d1 := series[x], series[x + 1];
    if d0 == None && d1 == None then Nothing
    else if d1 == None then Stub(Level(d0.value, f), Ends)
    else if d0 == None then Stub(Level(d1.value, f), Starts)
    else Line(Level(d0.value, f), Level(d1.value, f))
  }

  /** The glyph of a stroke at a level. */
  function GlyphAt(s: Stroke, y: int): Option<Glyph> {
    match s
    case Nothing => None
    case Stub(at, glyph) => if y == at then Some(glyph) else None
    case Line(y0, y1) =>
      if y0 == y1 then if y == y0 then Some(Flat) else None
      else if y == y0 then Some(if y0 > y1 then FallsIn else RisesIn)
      else if y == y1 then Some(if y0 > y1 then FallsOut else RisesOut)
      else if y0 < y < y1 || y1 < y < y0 then Some(Bar)
      else None
  }

  /** The glyph that a series puts in a cell. */
  function Overlay(series: seq<Point>, f: Frame, r: int, c: int): Option<Glyph>
    requires |series| >= 1
  {
    if c == f.offset - 1 && series[0].Some? && r == f.rows - Level(series[0].value, f) then Some(First)
    else if 0 <= c - f.offset < |series| - 1 then GlyphAt(StrokeAt(series, c - f.offset, f), f.rows - r)
    else None
  }

  /** The glyphs of the axis and its labels. */
  function AxisGlyph(f: Frame, tick: nat -> string, r: nat, c: nat): Glyph
    requires |tick(r)| >= 1
  {
    if c == f.offset - 1 then Axis
    else if c == (if |tick(r)| < f.offset then f.offset - |tick(r)| else 0) then Text(tick(r))
    else Space
  }

  predicate NoneEmpty(data: seq<seq<Point>>) {
    forall i :: 0 <= i < |data| ==> |data[i]| >= 1
  }

  /** The last series that fills a cell is the one that shows. */
  function Picture(series: seq<seq<Point>>, f: Frame, tick: nat -> string, r: nat, c: nat): Glyph
    requires |tick(r)| >= 1 && NoneEmpty(series)
  {
    if series == [] then AxisGlyph(f, tick, r, c)
    else
      match Overlay(series[|series| - 1], f, r, c)
      case Some(g) => g
      case None => Picture(series[..|series| - 1], f, tick, r, c)
  }

  /** The levels of a series, and its columns, are within the frame. */
  ghost predicate InFrame(series: seq<Point>, f: Frame) {
    && 1 <= |series| <= f.width - f.offset + 1 && f.offset >= 1
    && forall v :: v in Values(series) ==> 0 <= Level(v, f) <= f.rows
  }

  ghost predicate IsGrid(plot: array2<Glyph>, f: Frame) {
    plot.Length0 == f.rows + 1 && plot.Length1 == f.width && f.width >= f.offset >= 1
  }

  // ---------------------------------------------------------------- drawing

  method DrawAxis(plot: array2<Glyph>, f: Frame, tick: nat -> string)
    requires IsGrid(plot, f) && forall w: nat :: |tick(w)| >= 1
    requires forall r, c :: 0 <= r <= f.rows && 0 <= c < f.width ==> plot[r, c] == Space
    modifies plot
    ensures forall r: nat, c: nat :: r <= f.rows && c < f.width ==> plot[r, c] == AxisGlyph(f, tick, r, c)
  {
    for y := f.low to f.low + f.rows + 1
      invariant forall r: nat, c: nat :: r <= f.rows && c < f.width ==>
        plot[r, c] == if r < y - f.low then AxisGlyph(f, tick, r, c) else Space
    {
      var w := y - f.low;
      var text := tick(w);
      var h := if f.offset > |text| then f.offset - |text| else 0;
      plot[w, h] := Text(text);
      plot[w, f.offset - 1] := Axis;
    }
  }

  /** The column from point x to point x + 1. */
  method DrawColumn(plot: array2<Glyph>, f: Frame, series: seq<Point>, x: nat)
    requires IsGrid(plot, f) && InFrame(series, f) && x + 1 < |series|
    modifies plot
    ensures forall r, c :: 0 <= r <= f.rows && 0 <= c < f.width ==>
      plot[r, c] ==
        var g := GlyphAt(StrokeAt(series, x, f), f.rows - r);
        if c == x + f.offset && g.Some? then g.value else old(plot[r, c])
  {
    var d0, d1 := series[x], series[x + 1];
    assert d0.Some? ==> d0.value in Values(series);
    assert d1.Some? ==> d1.value in Values(series);
    if d0 == None && d1 == None {
      return;
    }
    if d1 == None {
      var y0 := Level(d0.value, f);
      plot[f.rows - y0, x + f.offset] := Ends;
      return;
    }
    if d0 == None {
      var y1 := Level(d1.value, f);
      plot[f.rows - y1, x + f.offset] := Starts;
      return;
    }
    var y0, y1 := Level(d0.value, f), Level(d1.value, f);
    if y0 == y1 {
      plot[f.rows - y0, x + f.offset] := Flat;
    } else {
      if y0 > y1 {
        plot[f.rows - y1, x + f.offset] := FallsOut;
        plot[f.rows - y0, x + f.offset] := FallsIn;
      } else {
        plot[f.rows - y1, x + f.offset] := RisesOut;
        plot[f.rows - y0, x + f.offset] := RisesIn;
      }
      var start := (if y0 < y1 then y0 else y1) + 1;
      var end := if y0 < y1 then y1 else y0;
      for y := start to end
        invariant forall r, c :: 0 <= r <= f.rows && 0 <= c < f.width ==>
          plot[r, c] ==
            var g := GlyphAt(Line(y0, y1), f.rows - r);
            if c == x + f.offset && g.Some? && !(y <= f.rows - r < end) then g.value else old(plot[r, c])
      {
        plot[f.rows - y, x + f.offset] := Bar;
      }
    }
  }

  method DrawSeries(plot: array2<Glyph>, f: Frame, series: seq<Point>)
    requires IsGrid(plot, f) && InFrame(series, f)
    modifies plot
    ensures forall r, c :: 0 <= r <= f.rows && 0 <= c < f.width ==>
      plot[r, c] == var g := Overlay(series, f, r, c); if g.Some? then g.value else old(plot[r, c])
  {
    if series[0].Some? {
      assert series[0].value in Values(series);
      var y0 := Level(series[0].value, f);
      plot[f.rows - y0, f.offset - 1] := First;
    }
    for x := 0 to |series| - 1
      invariant forall r, c :: 0 <= r <= f.rows && 0 <= c < f.width ==>
        plot[r, c] ==
          var g := Overlay(series, f, r, c);
          if c < x + f.offset && g.Some? then g.value else old(plot[r, c])
    {
      DrawColumn(plot, f, series, x);
    }
  }

  // ---------------------------------------------------------------- the whole plot

  function Longest(data: seq<seq<Point>>): nat {
    if data == [] then 0
    else
      var most, l := Longest(data[..|data| - 1]), |data[|data| - 1]|;
      if l > most then l else most
  }

  lemma {:induction false} LongestIs(data: seq<seq<Point>>)
    ensures forall i :: 0 <= i < |data| ==> |data[i]| <= Longest(data)
  {
    if data != [] {
      LongestIs(data[..|data| - 1]);
    }
  }

  /** Without a width no series may be empty; with one, an empty series is filled up if another is not empty. */
  predicate MayPrepare(longest: nat, length: nat, width: nat) {
    length <= longest && 1 <= if width == 0 then length else longest
  }

  predicate Plottable(data: seq<seq<Point>>, width: nat) {
    forall i :: 0 <= i < |data| ==> MayPrepare(Longest(data), |data[i]|, width)
  }

  /** Some series, then, is not empty if one is to be fitted. */
  lemma PlottableIs(data: seq<seq<Point>>, width: nat)
    ensures Plottable(data, width) <==> if width == 0 then NoneEmpty(data) else data == [] || Longest(data) >= 1
  {
    LongestIs(data);
    if width > 0 && data != [] {
      assert MayPrepare(Longest(data), |data[0]|, width) <==> Longest(data) >= 1;
    }
  }

  /** A series as it is plotted: with a width, filled up with missing values to the longest and fitted to the width. */
  function Prepared(series: seq<Point>, longest: nat, width: nat): seq<Point>
    requires MayPrepare(longest, |series|, width)
  {
    if width == 0 then series else Fitted(series + seq(longest - |series|, _ => None), width)
  }

  function PreparedAll(data: seq<seq<Point>>, width: nat): (prepared: seq<seq<Point>>)
    requires Plottable(data, width)
    ensures |prepared| == |data| && NoneEmpty(prepared)
    ensures forall i :: 0 <= i < |data| ==> prepared[i] == Prepared(data[i], Longest(data), width)
  {
    seq(|data|, i requires 0 <= i < |data| => Prepared(data[i], Longest(data), width))
  }

  method PrepareOne(data: array<seq<Point>>, i: nat, lenMax: nat, width: nat)
    requires i < data.Length && MayPrepare(lenMax, |data[i]|, width) && width > 0
    modifies data
    ensures forall k :: 0 <= k < data.Length ==>
      data[k] == if k == i then Prepared(old(data[i]), lenMax, width) else old(data[k])
  {
    var from := |data[i]|;
    for j := from to lenMax
      invariant data[i] == old(data[i]) + seq(j - from, _ => None)
      invariant forall k :: 0 <= k < data.Length && k != i ==> data[k] == old(data[k])
    {
      data[i] := data[i] + [None];
    }
    data[i] := InterpolateArray(data[i], width);
  }

  method FindLongest(data: array<seq<Point>>) returns (lenMax: nat)
    ensures lenMax == Longest(data[..])
  {
    lenMax := 0;
    for i := 0 to data.Length
      invariant lenMax == Longest(data[..i])
    {
      assert data[..i + 1][..i] == data[..i];
      if |data[i]| > lenMax {
        lenMax := |data[i]|;
      }
    }
    assert data[..data.Length] == data[..];
  }

  method FitAll(data: array<seq<Point>>, lenMax: nat, width: nat)
    requires Plottable(data[..], width) && lenMax == Longest(data[..]) && width > 0
    modifies data
    ensures data[..] == PreparedAll(old(data[..]), width)
  {
    ghost var was, prepared := data[..], PreparedAll(data[..], width);
    for i := 0 to data.Length
      invariant forall j :: 0 <= j < data.Length ==> data[j] == if j < i then prepared[j] else was[j]
    {
      assert prepared[i] == Prepared(was[i], lenMax, width);
      hide Prepared, PreparedAll, Longest;
      PrepareOne(data, i, lenMax, width);
    }
  }

  /** Every series of the data in place. */
  method Prepare(data: array<seq<Point>>, width: nat) returns (lenMax: nat)
    requires Plottable(data[..], width)
    modifies data
    ensures lenMax == if width > 0 then width else Longest(old(data[..]))
    ensures data[..] == PreparedAll(old(data[..]), width)
  {
    lenMax := FindLongest(data);
    if width > 0 {
      FitAll(data, lenMax, width);
      lenMax := width;
    } else {
      assert PreparedAll(data[..], 0) == data[..];
    }
  }

  function AllValues(data: seq<seq<Point>>): set<real> {
    if data == [] then {} else AllValues(data[..|data| - 1]) + Values(data[|data| - 1])
  }

  lemma {:induction false} AllValuesHas(data: seq<seq<Point>>, i: nat)
    requires i < |data|
    ensures Values(data[i]) <= AllValues(data)
  {
    if i < |data| - 1 {
      AllValuesHas(data[..|data| - 1], i);
    }
  }

  lemma {:induction false} AllValuesFrom(data: seq<seq<Point>>)
    ensures AllValues(data) != {} ==> exists i :: 0 <= i < |data| && Values(data[i]) != {}
  {
    if data != [] {
      var n := |data| - 1;
      AllValuesFrom(data[..n]);
      if AllValues(data[..n]) != {} {
        var i :| 0 <= i < n && Values(data[..n][i]) != {};
        assert data[i] == data[..n][i];
      } else if AllValues(data) != {} {
        assert Values(data[n]) != {};
      }
    }
  }

  /** How many points a width gives: a width of 1 gives two. */
  function Points(width: nat): nat {
    if width < 2 then 2 else width
  }

  /** The point i of fit points is drawn: both places of the series that it lies between hold values. */
  predicate Drawn(series: seq<Point>, longest: nat, fit: nat, i: nat)
    requires |series| <= longest && longest >= 1 && fit >= 2 && i < fit
  {
    var places := Around(longest, fit, i);
    places.1 < |series| && series[places.0].Some? && series[places.1].Some?
  }

  /** Some value of the series is left when it is plotted. */
  predicate Survives(series: seq<Point>, longest: nat, width: nat)
    requires MayPrepare(longest, |series|, width)
  {
    if width == 0 then exists j :: 0 <= j < |series| && series[j].Some?
    else
      var fit := Points(width);
      exists i: nat :: i < fit && Drawn(series, longest, fit, i)
  }

  lemma PreparedAt(series: seq<Point>, longest: nat, width: nat, i: nat)
    requires MayPrepare(longest, |series|, width) && width > 0 && i < Points(width)
    ensures Prepared(series, longest, width)[i].Some? <==> Drawn(series, longest, Points(width), i)
  {
    hide Fitted, Around, Between;
    FitAround(series + seq(longest - |series|, _ => None), width, i);
  }

  lemma HasValues(series: seq<Point>)
    ensures Values(series) != {} <==> exists j :: 0 <= j < |series| && series[j].Some?
  {
    if j :| 0 <= j < |series| && series[j].Some? {
      assert series[j] in series;
      assert series[j].value in Values(series);
    }
  }

  lemma PreparedHas(series: seq<Point>, longest: nat, width: nat)
    requires MayPrepare(longest, |series|, width)
    ensures Values(Prepared(series, longest, width)) != {} <==> Survives(series, longest, width)
    ensures series != [] && series[0].Some? ==> Survives(series, longest, width)
  {
    var prepared := Prepared(series, longest, width);
    HasValues(prepared);
    if width == 0 {
      assert series != [] && series[0].Some? ==> exists j :: 0 <= j < |series| && series[j].Some?;
    } else {
      var fit := Points(width);
      assert |prepared| == fit && Drawn(series, longest, fit, 0) == (series != [] && series[0].Some?);
      forall i: nat | i < fit
        ensures prepared[i].Some? <==> Drawn(series, longest, fit, i)
      {
        PreparedAt(series, longest, width, i);
        hide Prepared, Drawn;
      }
      hide Prepared, Drawn, Values;
    }
  }

  /** Whether there is anything to plot, told from the data as they come. */
  lemma AnythingToPlot(data: seq<seq<Point>>, width: nat)
    requires Plottable(data, width)
    ensures AllValues(PreparedAll(data, width)) != {} <==>
      exists i :: 0 <= i < |data| && Survives(data[i], Longest(data), width)
    ensures (exists i :: 0 <= i < |data| && data[i] != [] && data[i][0].Some?) ==>
      AllValues(PreparedAll(data, width)) != {}
  {
    var prepared := PreparedAll(data, width);
    AllValuesFrom(prepared);
    forall i | 0 <= i < |data|
      ensures Survives(data[i], Longest(data), width) ==> AllValues(prepared) != {}
      ensures Values(prepared[i]) != {} <==> Survives(data[i], Longest(data), width)
      ensures data[i] != [] && data[i][0].Some? ==> Survives(data[i], Longest(data), width)
    {
      PreparedHas(data[i], Longest(data), width);
      AllValuesHas(prepared, i);
      hide Survives, Prepared;
    }
    hide Survives;
  }

  method Extremes(data: array<seq<Point>>) returns (minimum: Point, maximum: Point)
    ensures IsLeast(minimum, AllValues(data[..])) && IsGreatest(maximum, AllValues(data[..]))
  {
    minimum, maximum := None, None;
    for i := 0 to data.Length
      invariant IsLeast(minimum, AllValues(data[..i])) && IsGreatest(maximum, AllValues(data[..i]))
    {
      var min, max := MinMax(data[i]);
      assert data[..i + 1][..i] == data[..i];
      if Below(min, minimum) {
        minimum := min;
      }
      if Above(max, maximum) {
        maximum := max;
      }
    }
    assert data[..data.Length] == data[..];
  }

  lemma SeriesInFrame(data: seq<seq<Point>>, i: nat, minimum: real, maximum: real,
                      height: nat, offset: int, lenMax: nat)
    requires i < |data| && height > 0 && 1 <= |data[i]| <= lenMax + 1
    requires IsLeast(Some(minimum), AllValues(data)) && IsGreatest(Some(maximum), AllValues(data))
    ensures InFrame(data[i], FrameFor(minimum, maximum, height, offset, lenMax))
  {
    AllValuesHas(data, i);
    forall v | v in Values(data[i]) {
      LevelsFit(minimum, maximum, height, offset, lenMax, v);
    }
    hide Level, Values, AllValues;
  }

  method NewGrid(f: Frame) returns (plot: array2<Glyph>)
    requires f.width >= f.offset >= 1
    ensures fresh(plot) && IsGrid(plot, f)
    ensures forall r, c :: 0 <= r <= f.rows && 0 <= c < f.width ==> plot[r, c] == Space
  {
    plot := new Glyph[f.rows + 1, f.width]((_, _) => Space);
  }

  method DrawAll(plot: array2<Glyph>, f: Frame, data: seq<seq<Point>>, tick: nat -> string)
    requires IsGrid(plot, f) && forall w: nat :: |tick(w)| >= 1
    requires NoneEmpty(data) && forall i :: 0 <= i < |data| ==> InFrame(data[i], f)
    requires forall r: nat, c: nat :: r <= f.rows && c < f.width ==> plot[r, c] == AxisGlyph(f, tick, r, c)
    modifies plot
    ensures forall r: nat, c: nat :: r <= f.rows && c < f.width ==> plot[r, c] == Picture(data, f, tick, r, c)
  {
    for i := 0 to |data|
      invariant forall r: nat, c: nat :: r <= f.rows && c < f.width ==> plot[r, c] == Picture(data[..i], f, tick, r, c)
    {
      assert data[..i + 1][..i] == data[..i];
      DrawSeries(plot, f, data[i]);
      hide Overlay, AxisGlyph;
    }
    assert data[..|data|] == data;
  }

  /** The grid of a plot of given height. tick gives the text of the label of a row. */
  method PlotMany(data: array<seq<Point>>, width: nat, height: nat, offset: int, tick: nat -> string)
    returns (plot: array2<Glyph>, f: Frame, minimum: real, maximum: real)
    requires height > 0 && forall w: nat :: |tick(w)| >= 1
    requires Plottable(data[..], width) && AllValues(PreparedAll(data[..], width)) != {}
    modifies data
    ensures data[..] == PreparedAll(old(data[..]), width)
    ensures IsLeast(Some(minimum), AllValues(data[..])) && IsGreatest(Some(maximum), AllValues(data[..]))
    ensures f == FrameFor(minimum, maximum, height, offset, if width > 0 then width else Longest(old(data[..])))
    ensures fresh(plot) && IsGrid(plot, f)
    ensures forall r: nat, c: nat :: r <= f.rows && c < f.width ==> plot[r, c] == Picture(data[..], f, tick, r, c)
  {
    var lenMax := Prepare(data, width);
    var min, max := Extremes(data);
    minimum, maximum := min.value, max.value;
    f := FrameFor(minimum, maximum, height, offset, lenMax);
    forall i | 0 <= i < data.Length
      ensures InFrame(data[i], f)
    {
      SeriesInFrame(data[..], i, minimum, maximum, height, offset, lenMax);
    }
    plot := NewGrid(f);
    DrawAxis(plot, f, tick);
    DrawAll(plot, f, data[..], tick);
  }

  // ---------------------------------------------------------------- connected lines

  /** What a series puts in a cell may be covered by a later one, never erased. */
  lemma {:induction false} Shows(data: seq<seq<Point>>, i: nat, f: Frame, tick: nat -> string, r: nat, c: nat)
    requires i < |data| && NoneEmpty(data) && |tick(r)| >= 1 && Overlay(data[i], f, r, c).Some?
    ensures Picture(data, f, tick, r, c) != Space
  {
    if i < |data| - 1 {
      Shows(data[..|data| - 1], i, f, tick, r, c);
    }
  }

  /** Around a value that is there two neighbouring columns are filled in one and the same row of the grid. */
  lemma LineConnected(data: seq<seq<Point>>, i: nat, x: nat, f: Frame, tick: nat -> string)
    requires i < |data| && NoneEmpty(data) && InFrame(data[i], f) && forall w: nat :: |tick(w)| >= 1
    requires x + 2 < |data[i]| && data[i][x + 1].Some?
    ensures var r := f.rows - Level(data[i][x + 1].value, f);
      && 0 <= r <= f.rows && f.offset + x + 1 < f.width
      && Picture(data, f, tick, r, f.offset + x) != Space && Picture(data, f, tick, r, f.offset + x + 1) != Space
  {
    hide Level, Picture;
    var v := data[i][x + 1].value;
    assert v in Values(data[i]);
    Shows(data, i, f, tick, f.rows - Level(v, f), f.offset + x);
    Shows(data, i, f, tick, f.rows - Level(v, f), f.offset + x + 1);
  }

  /** Between two values that are there the column is filled from the row of one to the row of the other. */
  lemma LineUnbroken(data: seq<seq<Point>>, i: nat, x: nat, f: Frame, tick: nat -> string, r: nat)
    requires i < |data| && NoneEmpty(data) && InFrame(data[i], f) && |tick(r)| >= 1
    requires x + 1 < |data[i]| && data[i][x].Some? && data[i][x + 1].Some?
    requires var y0, y1 := Level(data[i][x].value, f), Level(data[i][x + 1].value, f);
      if y0 <= y1 then y0 <= f.rows - r <= y1 else y1 <= f.rows - r <= y0
    ensures Picture(data, f, tick, r, f.offset + x) != Space
  {
    hide Level, Picture;
    Shows(data, i, f, tick, r, f.offset + x);
  }

  /** A plot of one series: a cell to the right of the axis is filled exactly when the line
      between two neighbouring points, or the end of a line beside a gap, goes through it. */
  lemma OneSeries(series: seq<Point>, f: Frame, tick: nat -> string, r: nat, c: nat)
    requires |series| >= 1 && |tick(r)| >= 1 && f.offset <= c && f.offset >= 1
    ensures Picture([series], f, tick, r, c) != Space <==>
      && c - f.offset + 1 < |series|
      && match StrokeAt(series, c - f.offset, f)
         case Nothing => false
         case Stub(y, _) => f.rows - r == y
         case Line(y0, y1) => if y0 <= y1 then y0 <= f.rows - r <= y1 else y1 <= f.rows - r <= y0
  {
    assert [series][..0] == [];
    assert Picture([], f, tick, r, c) == AxisGlyph(f, tick, r, c) == Space;
    hide Level;
  }
}
