/**
 What a plot looks like (pkg/asciigraph/asciigraph.go): how the levels follow the values, and
 which sides of a cell its character reaches.
 */
module PlotShape {
  import opened Options
  import opened PlotScale
  import opened Plot

  // ---------------------------------------------------------------- levels

  /** A greater value is not below a smaller one. */
  lemma LevelMonotone(minimum: real, maximum: real, height: nat, offset: int, lenMax: nat, v: real, w: real)
    requires minimum <= maximum && height > 0 && v <= w
    ensures var f := FrameFor(minimum, maximum, height, offset, lenMax); Level(v, f) <= Level(w, f)
  {
    var f := FrameFor(minimum, maximum, height, offset, lenMax);
    if minimum < maximum {
      Scaled(minimum, maximum, height);
    }
    ScaleMonotone(v, w, f.ratio);
    RoundMonotone(Scale(v, f.ratio), Scale(w, f.ratio));
    hide Round, Scale, Ratio;
  }

  lemma RoundNear(x: real)
    ensures x - 0.5 <= Round(x) as real <= x + 0.5
  {
    RoundNearest(x, Round(x));
  }

  lemma Product(a: real, b: real, d: real)
    requires a <= b && d >= 0.0
    ensures a * d <= b * d
  {
    ProductNotNegative(b - a, d);
  }

  lemma ShareIs(minimum: real, maximum: real, height: nat, v: real)
    requires minimum < maximum && height > 0
    ensures var ratio := Ratio(maximum - minimum, height);
      (Scale(v, ratio) - Scale(minimum, ratio)) * (maximum - minimum) == (v - minimum) * height as real
  {
    var ratio, d := Ratio(maximum - minimum, height), maximum - minimum;
    assert ratio * d == height as real;
    assert Scale(v, ratio) - Scale(minimum, ratio) == (v - minimum) * ratio;
    assert (v - minimum) * ratio * d == (v - minimum) * (ratio * d);
  }

  lemma Near(share: real, level: int, d: real, product: real)
    requires level as real - 1.0 <= share <= level as real + 1.0 && share * d == product && d >= 0.0
    ensures (level as real - 1.0) * d <= product <= (level as real + 1.0) * d
  {
    Product(level as real - 1.0, share, d);
    Product(share, level as real + 1.0, d);
  }

  lemma LevelNear(v: real, f: Frame, minimum: real)
    requires f.low == Round(Scale(minimum, f.ratio))
    ensures var share := Scale(v, f.ratio) - Scale(minimum, f.ratio);
      Level(v, f) as real - 1.0 <= share <= Level(v, f) as real + 1.0
  {
    hide Round, Scale;
    RoundNear(Scale(v, f.ratio));
    RoundNear(Scale(minimum, f.ratio));
  }

  /** The level of a value is its share of the height asked for, to within one row. */
  lemma LevelShare(minimum: real, maximum: real, height: nat, offset: int, lenMax: nat, v: real)
    requires minimum < maximum && height > 0
    ensures var level := Level(v, FrameFor(minimum, maximum, height, offset, lenMax));
      (level as real - 1.0) * (maximum - minimum) <= (v - minimum) * height as real
        <= (level as real + 1.0) * (maximum - minimum)
  {
    hide Round, Scale, Ratio, Level;
    var f := FrameFor(minimum, maximum, height, offset, lenMax);
    ShareIs(minimum, maximum, height, v);
    LevelNear(v, f, minimum);
    Near(Scale(v, f.ratio) - Scale(minimum, f.ratio), Level(v, f), maximum - minimum, (v - minimum) * height as real);
  }

  /** The least value is on the bottom row, the greatest on the top one. */
  lemma LevelEnds(minimum: real, maximum: real, height: nat, offset: int, lenMax: nat)
    requires minimum <= maximum && height > 0
    ensures var f := FrameFor(minimum, maximum, height, offset, lenMax);
      && Level(minimum, f) == 0 && Level(maximum, f) == f.rows
      && f.offset == (if offset <= 0 then 3 else offset) && f.width == lenMax + f.offset
  {
    LevelsFit(minimum, maximum, height, offset, lenMax, maximum);
    hide Round, Scale, Ratio;
  }

  // ---------------------------------------------------------------- characters

  datatype Side = Left | Right | Up | Down

  /** The character of a glyph of a line. */
  function Rune(g: Glyph): char {
    match g
    case Flat => '─'
    case FallsIn => '╮'
    case FallsOut => '╰'
    case RisesIn => '╯'
    case RisesOut => '╭'
    case Bar => '│'
    case Ends => '╴'
    case Starts => '╶'
    case First => '┼'
    case Axis => '┤'
    case _ => ' '
  }

  /** The sides of its cell that a box character reaches, as Unicode draws it. */
  function Sides(c: char): set<Side> {
    if c == '─' then {Left, Right}
    else if c == '│' then {Up, Down}
    else if c == '╮' then {Left, Down}
    else if c == '╰' then {Up, Right}
    else if c == '╯' then {Left, Up}
    else if c == '╭' then {Down, Right}
    else if c == '╴' then {Left}
    else if c == '╶' then {Right}
    else if c == '┤' then {Left, Up, Down}
    else if c == '┼' then {Left, Right, Up, Down}
    else {}
  }

  function SidesAt(g: Option<Glyph>): set<Side> {
    if g.Some? then Sides(Rune(g.value)) else {}
  }

  function Least(a: int, b: int): int {
    if a <= b then a else b
  }

  function Greatest(a: int, b: int): int {
    if a <= b then b else a
  }

  /** The line from point x to the next runs over the levels from y to z. */
  predicate Passes(series: seq<Point>, x: nat, f: Frame, y: int, z: int)
    requires x + 1 < |series|
  {
    && series[x].Some? && series[x + 1].Some?
    && Least(Level(series[x].value, f), Level(series[x + 1].value, f)) <= y
    && z <= Greatest(Level(series[x].value, f), Level(series[x + 1].value, f))
  }

  /** In a column the line comes in from the left on the level of its first point, goes out to the right on that
      of its second, and runs up and down between these two; a gap lets it end or start. */
  lemma ColumnSides(series: seq<Point>, x: nat, f: Frame, y: int)
    requires x + 1 < |series|
    ensures var sides := SidesAt(GlyphAt(StrokeAt(series, x, f), y));
      && (Left in sides <==> series[x].Some? && y == Level(series[x].value, f))
      && (Right in sides <==> series[x + 1].Some? && y == Level(series[x + 1].value, f))
      && (Up in sides <==> Passes(series, x, f, y, y + 1))
      && (Down in sides <==> Passes(series, x, f, y - 1, y))
      && (GlyphAt(StrokeAt(series, x, f), y).Some? <==> sides != {})
  {
    hide Level;
  }

  /** On a plot of one series every cell right of the axis shows just that. */
  lemma PictureSides(series: seq<Point>, f: Frame, tick: nat -> string, r: nat, c: nat)
    requires |series| >= 1 && |tick(r)| >= 1 && f.offset >= 1 && f.offset <= c && c - f.offset + 1 < |series|
    ensures Sides(Rune(Picture([series], f, tick, r, c))) ==
      SidesAt(GlyphAt(StrokeAt(series, c - f.offset, f), f.rows - r))
  {
    assert [series][..0] == [];
    assert Picture([], f, tick, r, c) == AxisGlyph(f, tick, r, c) == Space;
    hide Level, StrokeAt, GlyphAt;
  }

  /** Where several series fill a cell the last of them shows. */
  lemma {:induction false} LastShows(data: seq<seq<Point>>, i: nat, f: Frame, tick: nat -> string, r: nat, c: nat)
    requires i < |data| && NoneEmpty(data) && |tick(r)| >= 1 && Overlay(data[i], f, r, c).Some?
    requires forall j :: i < j < |data| ==> Overlay(data[j], f, r, c).None?
    ensures Picture(data, f, tick, r, c) == Overlay(data[i], f, r, c).value
  {
    hide Overlay;
    if i < |data| - 1 {
      LastShows(data[..|data| - 1], i, f, tick, r, c);
    }
  }

  /** Where none does the axis shows, or nothing. */
  lemma {:induction false} NoneShows(data: seq<seq<Point>>, f: Frame, tick: nat -> string, r: nat, c: nat)
    requires NoneEmpty(data) && |tick(r)| >= 1
    requires forall j :: 0 <= j < |data| ==> Overlay(data[j], f, r, c).None?
    ensures Picture(data, f, tick, r, c) == AxisGlyph(f, tick, r, c)
  {
    hide Overlay;
    if data != [] {
      NoneShows(data[..|data| - 1], f, tick, r, c);
    }
  }

  /** The axis is marked on the rows of the first values of the series, and on no other. */
  lemma {:induction false} FirstMarks(data: seq<seq<Point>>, f: Frame, tick: nat -> string, r: nat)
    requires NoneEmpty(data) && |tick(r)| >= 1 && f.offset >= 1
    ensures Picture(data, f, tick, r, f.offset - 1) ==
      if exists i :: 0 <= i < |data| && data[i][0].Some? && r == f.rows - Level(data[i][0].value, f) then First
      else Axis
  {
    hide Level;
    if data != [] {
      var n := |data| - 1;
      FirstMarks(data[..n], f, tick, r);
      assert forall i :: 0 <= i < n ==> data[..n][i] == data[i];
    }
  }

  /** A label ends where the axis is, or begins in the first column if it is too long. */
  lemma LabelAt(f: Frame, tick: nat -> string, r: nat, c: nat)
    requires |tick(r)| >= 1 && f.offset >= 1
    ensures AxisGlyph(f, tick, r, c) == Text(tick(r)) <==>
      c != f.offset - 1 && (c + |tick(r)| == f.offset || (c == 0 && |tick(r)| > f.offset))
  {
  }
}
