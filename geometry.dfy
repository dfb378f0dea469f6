/**
 * The layout arithmetic: the metrics derived from the options, and the
 * mapping from a (string, fret) coordinate to a point of the drawing.
 */
module Geometry {
  import opened Wrappers
  import opened Types
  import opened Options

  function Abs(n: int): nat {
    if n < 0 then -n else n
  }

  /**
   * The number of fret rows between the top and the bottom fret line:
   * starting at the nut (fret 0) adds no row of its own.
   */
  function FretCount(startFret: int, endFret: int): (r: int)
    ensures startFret <= endFret ==> (r == endFret - startFret <==> startFret == 0)
    ensures startFret <= endFret ==> (r == endFret - startFret + 1 <==> startFret != 0)
  {
    (endFret - startFret) + (if startFret == 0 then 0 else 1)
  }

  /** The frets startFret, startFret + 1, ..., endFret, in ascending order. */
  function FretRange(startFret: int, endFret: int): (r: seq<int>)
    decreases endFret - startFret
  {
    if startFret > endFret then [] else [startFret] + FretRange(startFret + 1, endFret)
  }

  /** The options leave no zero divisor: not exactly one string, and a non-zero fret count. */
  predicate NonZeroDivisors(o: Opts) {
    |o.stringNames| != 1 && FretCount(o.startFret, o.endFret) != 0
  }

  /** The options describe a drawable fretboard. */
  predicate WellFormed(o: Opts) {
    o.width > 0.0 && o.height > 0.0 && |o.stringNames| >= 2 && FretCount(o.startFret, o.endFret) > 0
  }

  /**
   * The metrics of the diagram. The margins and the neck partition the
   * canvas both ways, the neck takes two thirds of the width and either
   * three quarters of the height (no label) or five eighths (a label),
   * and the string and fret spacings times their counts fill the neck.
   */
  function DeriveFretboardData(o: Opts): (d: FretboardData)
    requires NonZeroDivisors(o)
    ensures d.stringCount == |o.stringNames|
    ensures d.fretCount == FretCount(o.startFret, o.endFret)
    ensures d.xMargin + d.neckWidth + d.xMargin == o.width
    ensures d.yMargin + d.neckHeight + d.yMargin == o.height
    ensures d.neckWidth == 2.0 * o.width / 3.0
    ensures d.neckHeight == if o.labelText == "" then 3.0 * o.height / 4.0 else 5.0 * o.height / 8.0
    ensures d.stringMargin * (d.stringCount - 1) as real == d.neckWidth
    ensures d.fretHeight * d.fretCount as real == d.neckHeight
    ensures d.fretNumOffset * 6.0 == d.neckWidth
  {
    var xMargin := o.width / 6.0;
    var yMarginOffset := if o.labelText == "" then 1.0 else 1.5;
    var yMargin := (o.height / 8.0) * yMarginOffset;

    var neckWidth := o.width - (xMargin * 2.0);
    var neckHeight := o.height - (yMargin * 2.0);

    var stringCount := |o.stringNames|;
    var stringMargin := neckWidth / (stringCount - 1) as real;

    var fretCountOffset := if o.startFret == 0 then 0 else 1;
    var fretCount := (o.endFret - o.startFret) + fretCountOffset;
    var fretHeight := neckHeight / fretCount as real;
    var fretNumOffset := neckWidth / 6.0;

    FretboardData(xMargin, yMargin, neckWidth, neckHeight, stringCount, stringMargin, fretCount, fretHeight,
                  fretNumOffset)
  }

  /**
   * The point of a coordinate. The string index is mirrored through
   * |string - stringCount|; a fretted position is nudged up by an eighth
   * of a fret, the open position is not.
   */
  function FretCoordPoint(c: FretCoord, d: FretboardData): (p: Point)
    ensures 1 <= c.str <= d.stringCount ==> p.x == d.xMargin + (d.stringCount - c.str) as real * d.stringMargin
    ensures c.fret == 0 ==> p.y == d.yMargin - d.fretHeight / 2.0
    ensures c.fret != 0 ==> p.y == d.yMargin + (c.fret as real - 5.0 / 8.0) * d.fretHeight
  {
    var stringNum := Abs(c.str - d.stringCount);
    var x := (stringNum as real * d.stringMargin) + d.xMargin;
    var yOffset := if c.fret == 0 then 0.0 else -d.fretHeight / 8.0;
    var y := (c.fret as real * d.fretHeight) - (d.fretHeight / 2.0) + d.yMargin + yOffset;
    Point(x, y)
  }

  /** The defaults, 1..4, give four rows; starting at the nut, 0..3 gives three. */
  lemma FretCountExamples()
    ensures FretCount(1, 4) == 4 && FretCount(0, 3) == 3 && FretCount(0, 4) == 4
  {
  }

  lemma {:induction false} FretRangeAt(startFret: int, endFret: int, i: int)
    requires startFret <= endFret + 1
    ensures |FretRange(startFret, endFret)| == endFret - startFret + 1
    ensures 0 <= i <= endFret - startFret ==> FretRange(startFret, endFret)[i] == startFret + i
    decreases endFret - startFret
  {
    if startFret <= endFret {
      FretRangeAt(startFret + 1, endFret, i - 1);
    }
  }

  /**
   * The fret count is the number of frets in the range other than the
   * open position: every fret of startFret..endFret gets a row, except
   * fret 0 when the range starts at the nut.
   */
  lemma FretCountIsFrettedPositions(startFret: int, endFret: int)
    requires 0 <= startFret <= endFret
    ensures FretCount(startFret, endFret) == |FretRange(startFret, endFret)| - (if 0 in FretRange(startFret, endFret) then 1 else 0)
  {
    FretRangeAt(startFret, endFret, 0);
    if startFret == 0 {
      assert FretRange(startFret, endFret)[0] == 0;
    } else {
      forall i | 0 <= i < |FretRange(startFret, endFret)|
        ensures FretRange(startFret, endFret)[i] != 0
      {
        FretRangeAt(startFret, endFret, i);
      }
    }
  }

  /** A drawable fretboard has positive margins, neck and spacings. */
  lemma PositiveMetrics(o: Opts)
    requires WellFormed(o)
    ensures var d := DeriveFretboardData(o);
      d.xMargin > 0.0 && d.yMargin > 0.0 && d.neckWidth > 0.0 && d.neckHeight > 0.0 &&
      d.stringMargin > 0.0 && d.fretHeight > 0.0 && d.fretNumOffset > 0.0
  {
    var d := DeriveFretboardData(o);
    assert d.neckWidth > 0.0 && d.neckHeight > 0.0;
    PositiveQuotient(d.neckWidth, (d.stringCount - 1) as real, d.stringMargin);
    PositiveQuotient(d.neckHeight, d.fretCount as real, d.fretHeight);
  }

  lemma PositiveQuotient(a: real, b: real, q: real)
    requires a > 0.0 && b > 0.0 && q * b == a
    ensures q > 0.0
  {
  }

  /** With no label the top margin is an eighth of the height; with one, it is half as big again. */
  lemma TopMargin(o: Opts)
    requires NonZeroDivisors(o)
    ensures DeriveFretboardData(o).yMargin == if o.labelText == "" then o.height / 8.0 else 1.5 * o.height / 8.0
  {
  }

  /**
   * Horizontally, a point of a string 1..stringCount lies on the neck:
   * the last string is its left edge and string 1 its right edge.
   */
  lemma PointWithinNeckWidth(o: Opts, c: FretCoord)
    requires WellFormed(o)
    requires 1 <= c.str <= |o.stringNames|
    ensures var d := DeriveFretboardData(o);
      var p := FretCoordPoint(c, d);
      d.xMargin <= p.x <= o.width - d.xMargin &&
      (c.str == d.stringCount ==> p.x == d.xMargin) &&
      (c.str == 1 ==> p.x == o.width - d.xMargin)
  {
    var d := DeriveFretboardData(o);
    PositiveMetrics(o);
    var k := (d.stringCount - c.str) as real;
    var n1 := (d.stringCount - 1) as real;
    assert FretCoordPoint(c, d).x == k * d.stringMargin + d.xMargin;
    assert n1 * d.stringMargin + d.xMargin == o.width - d.xMargin;
    ScaleMonotone(k, n1, d.stringMargin);
  }

  lemma ScaleMonotone(a: real, b: real, c: real)
    requires 0.0 <= a <= b && c >= 0.0
    ensures 0.0 <= a * c <= b * c
  {
  }

  /** The open position sits half a fret above the top fret line. */
  lemma OpenPointAboveNeck(c: FretCoord, d: FretboardData)
    requires c.fret == 0
    ensures FretCoordPoint(c, d).y == d.yMargin - d.fretHeight / 2.0
    ensures d.fretHeight > 0.0 ==> FretCoordPoint(c, d).y < d.yMargin
  {
  }

  /**
   * A fretted position f sits five eighths of a fret above fret line f,
   * strictly between fret lines f - 1 and f.
   */
  lemma FrettedPointBetweenFretLines(c: FretCoord, d: FretboardData)
    requires c.fret != 0
    ensures FretCoordPoint(c, d).y == d.yMargin + (c.fret as real - 5.0 / 8.0) * d.fretHeight
    ensures d.fretHeight > 0.0 ==>
      (c.fret - 1) as real * d.fretHeight + d.yMargin < FretCoordPoint(c, d).y < c.fret as real * d.fretHeight + d.yMargin
  {
  }

  /** Points move down the neck as the fret grows. */
  lemma PointYIncreasing(c1: FretCoord, c2: FretCoord, d: FretboardData)
    requires d.fretHeight > 0.0
    requires c1.fret < c2.fret
    ensures FretCoordPoint(c1, d).y < FretCoordPoint(c2, d).y
  {
    var f1, f2 := c1.fret as real, c2.fret as real;
    var o1 := if c1.fret == 0 then 0.0 else 1.0 / 8.0;
    var o2 := if c2.fret == 0 then 0.0 else 1.0 / 8.0;
    assert FretCoordPoint(c1, d).y == (f1 - 0.5 - o1) * d.fretHeight + d.yMargin;
    assert FretCoordPoint(c2, d).y == (f2 - 0.5 - o2) * d.fretHeight + d.yMargin;
    assert f2 - 0.5 - o2 > f1 - 0.5 - o1;
    PositiveQuotient((f2 - 0.5 - o2 - (f1 - 0.5 - o1)) * d.fretHeight, d.fretHeight, f2 - 0.5 - o2 - (f1 - 0.5 - o1));
  }

  /** The horizontal position depends on the string alone, the vertical on the fret alone. */
  lemma PointCoordinatesSeparate(s1: int, s2: int, f1: int, f2: int, d: FretboardData)
    ensures FretCoordPoint(FretCoord(s1, f1), d).x == FretCoordPoint(FretCoord(s1, f2), d).x
    ensures FretCoordPoint(FretCoord(s1, f1), d).y == FretCoordPoint(FretCoord(s2, f1), d).y
  {
  }

  /** The defaults describe a drawable fretboard. */
  lemma DefaultsWellFormed()
    ensures WellFormed(DefaultOpts)
  {
  }

  /** The default guitar: six strings, frets 1..4, no label. */
  lemma DefaultLayout()
    ensures DeriveFretboardData(DefaultOpts) ==
      FretboardData(xMargin := 100.0 / 3.0, yMargin := 37.5, neckWidth := 400.0 / 3.0, neckHeight := 225.0,
                    stringCount := 6, stringMargin := 80.0 / 3.0, fretCount := 4, fretHeight := 56.25,
                    fretNumOffset := 200.0 / 9.0)
  {
  }

  /** A label makes the top and bottom margins half as big again. */
  lemma LabelledLayout()
    ensures var d := DeriveFretboardData(MergeOpts(NoUserOpts.(labelText := Some("Cmaj"))));
      d.yMargin == 56.25 && d.neckHeight == 187.5 && d.fretCount == 4 && d.fretHeight == 46.875
  {
  }

  /** Starting at the nut, frets 0..3 give three rows. */
  lemma OpenPositionLayout()
    ensures var d := DeriveFretboardData(MergeOpts(NoUserOpts.(startFret := Some(0), endFret := Some(3))));
      d.fretCount == 3 && d.fretHeight == 75.0
  {
  }
}
