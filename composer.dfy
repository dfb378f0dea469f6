/**
 * The diagram composer: which primitives are drawn, where, and in what
 * order. Each draw pass is a loop that appends to the svg element's child
 * list; it is specified by a function giving the commands of its first k
 * iterations.
 */
module Composer {
  import opened Wrappers
  import opened Types
  import opened Svg
  import opened Options
  import opened Geometry

  /** The font size of the fret numbers. */
  const FretNumFontSize: nat := 16

  // ---------------------------------------------------------------------------
  // What each pass draws

  /** String line i: vertical, i string spacings right of the left margin, spanning the neck. */
  function StringLine(st: FretboardState, i: int): (c: Command)
    ensures c.Line? && c.x1 == c.x2
    ensures c.x1 - st.data.xMargin == i as real * st.data.stringMargin
    ensures c.y1 == st.data.yMargin && c.y2 - c.y1 == st.data.neckHeight
  {
    var x := (i as real * st.data.stringMargin) + st.data.xMargin;
    Line(x, st.data.yMargin, x, st.data.yMargin + st.data.neckHeight)
  }

  /** The string lines of the first k iterations. */
  function StringLines(st: FretboardState, k: nat): seq<Command> {
    if k == 0 then [] else StringLines(st, k - 1) + [StringLine(st, k - 1)]
  }

  /** Fret line i: horizontal across the neck, i fret heights below the top margin. */
  function FretLine(st: FretboardState, i: int): (c: Command)
    ensures c.Line? && c.y1 == c.y2
    ensures c.y1 - st.data.yMargin == i as real * st.data.fretHeight
    ensures c.x1 == st.data.xMargin && c.x1 + c.x2 == st.opts.width
  {
    var y := (i as real * st.data.fretHeight) + st.data.yMargin;
    Line(st.data.xMargin, y, st.opts.width - st.data.xMargin, y)
  }

  /** The fret lines of the first k iterations. */
  function FretLines(st: FretboardState, k: nat): seq<Command> {
    if k == 0 then [] else FretLines(st, k - 1) + [FretLine(st, k - 1)]
  }

  /** How many times `for (i = 0; i <= fretCount; i++)` runs. */
  function FretLineCount(fretCount: int): nat {
    if fretCount >= 0 then fretCount + 1 else 0
  }

  /** The label, centred above the neck. */
  function LabelText(st: FretboardState): (c: Command)
    ensures c.Text? && c.body == Label(st.opts.labelText) && c.fontSize.None?
    ensures 2.0 * c.x == st.opts.width && 2.0 * c.y == st.data.yMargin
  {
    Text(st.opts.width / 2.0, st.data.yMargin - (st.data.yMargin / 2.0), Label(st.opts.labelText), None)
  }

  /** The number of `fret`, beside the last string's point of that fret. */
  function FretNumText(st: FretboardState, fret: int): (c: Command)
    ensures c.Text? && c.body == FretNumber(fret) && c.fontSize == Some(FretNumFontSize)
    ensures st.data.stringCount >= 1 ==> c.x == st.data.xMargin - st.data.fretNumOffset
    ensures fret == 0 ==> c.y == st.data.yMargin - st.data.fretHeight / 4.0
    ensures fret != 0 ==> c.y == st.data.yMargin + (fret as real - 3.0 / 8.0) * st.data.fretHeight
  {
    var p := FretCoordPoint(FretCoord(st.data.stringCount, fret), st.data);
    Text(p.x - st.data.fretNumOffset, p.y + st.data.fretHeight / 4.0, FretNumber(fret), Some(FretNumFontSize))
  }

  /** The fret numbers of the first k iterations, starting at startFret. */
  function FretNumTexts(st: FretboardState, k: nat): seq<Command> {
    if k == 0 then [] else FretNumTexts(st, k - 1) + [FretNumText(st, st.opts.startFret + k - 1)]
  }

  /** How many times `for (fret = startFret; fret <= endFret; fret++)` runs. */
  function FretNumCount(o: Opts): nat {
    if o.endFret >= o.startFret then o.endFret - o.startFret + 1 else 0
  }

  /** The state the passes read: the options and their derived metrics. */
  function StateOf(o: Opts): FretboardState
    requires NonZeroDivisors(o)
  {
    FretboardState(o, DeriveFretboardData(o))
  }

  /** Everything the four passes draw from the state `st`, in order. */
  function Drawing(st: FretboardState): seq<Command> {
    StringLines(st, st.data.stringCount)
      + FretLines(st, FretLineCount(st.data.fretCount))
      + (if st.opts.labelText != "" then [LabelText(st)] else [])
      + (if st.opts.showFretNums then FretNumTexts(st, FretNumCount(st.opts)) else [])
  }

  /** Everything the diagram draws for the merged options `o`, in order. */
  function DiagramCommands(o: Opts): seq<Command>
    requires NonZeroDivisors(o)
  {
    Drawing(StateOf(o))
  }

  // ---------------------------------------------------------------------------
  // The passes

  method DrawStrings(svgElem: SvgElement, st: FretboardState)
    modifies svgElem
    ensures svgElem.children == old(svgElem.children) + StringLines(st, st.data.stringCount)
  {
    var i := 0;
    while i < st.data.stringCount
      invariant 0 <= i <= st.data.stringCount
      invariant svgElem.children == old(svgElem.children) + StringLines(st, i)
    {
      var x := (i as real * st.data.stringMargin) + st.data.xMargin;
      var line := Line(x, st.data.yMargin, x, st.data.yMargin + st.data.neckHeight);
      svgElem.AppendChild(line);
      assert line == StringLine(st, i);
      assert StringLines(st, i + 1) == StringLines(st, i) + [line];
      i := i + 1;
    }
  }

  method DrawFrets(svgElem: SvgElement, st: FretboardState)
    modifies svgElem
    ensures svgElem.children == old(svgElem.children) + FretLines(st, FretLineCount(st.data.fretCount))
  {
    var i := 0;
    while i <= st.data.fretCount
      invariant 0 <= i <= FretLineCount(st.data.fretCount)
      invariant svgElem.children == old(svgElem.children) + FretLines(st, i)
      decreases st.data.fretCount + 1 - i
    {
      var y := (i as real * st.data.fretHeight) + st.data.yMargin;
      var x1 := st.data.xMargin;
      var x2 := st.opts.width - st.data.xMargin;
      var line := Line(x1, y, x2, y);
      svgElem.AppendChild(line);
      assert line == FretLine(st, i);
      assert FretLines(st, i + 1) == FretLines(st, i) + [line];
      i := i + 1;
    }
  }

  method DrawLabel(svgElem: SvgElement, st: FretboardState)
    modifies svgElem
    ensures svgElem.children == old(svgElem.children) + [LabelText(st)]
  {
    var x := st.opts.width / 2.0;
    var y := st.data.yMargin - (st.data.yMargin / 2.0);
    svgElem.AppendChild(Text(x, y, Label(st.opts.labelText), None));
  }

  method DrawFretNums(svgElem: SvgElement, st: FretboardState)
    modifies svgElem
    ensures svgElem.children == old(svgElem.children) + FretNumTexts(st, FretNumCount(st.opts))
  {
    var str := st.data.stringCount;
    var fret := st.opts.startFret;
    while fret <= st.opts.endFret
      invariant st.opts.startFret <= fret
      invariant fret - st.opts.startFret <= FretNumCount(st.opts)
      invariant svgElem.children == old(svgElem.children) + FretNumTexts(st, fret - st.opts.startFret)
      decreases st.opts.endFret - fret
    {
      var p := FretCoordPoint(FretCoord(str, fret), st.data);
      var textElem := Text(p.x - st.data.fretNumOffset, p.y + st.data.fretHeight / 4.0, FretNumber(fret),
                           Some(FretNumFontSize));
      svgElem.AppendChild(textElem);
      fret := fret + 1;
    }
  }

  /**
   * Merges the caller's options over the defaults, creates the element and
   * draws strings, frets, then the label if there is one, then the fret
   * numbers if asked for.
   */
  method MakeFretboardDiagram(userOpts: UserOpts) returns (svgElem: SvgElement)
    requires NonZeroDivisors(MergeOpts(userOpts))
    ensures fresh(svgElem)
    ensures svgElem.width == MergeOpts(userOpts).width && svgElem.height == MergeOpts(userOpts).height
    ensures svgElem.children == DiagramCommands(MergeOpts(userOpts))
  {
    var opts := MergeOpts(userOpts);
    svgElem := new SvgElement(opts.width, opts.height);
    var state := FretboardState(opts, DeriveFretboardData(opts));
    ghost var strings := StringLines(state, state.data.stringCount);
    ghost var frets := FretLines(state, FretLineCount(state.data.fretCount));

    DrawStrings(svgElem, state);
    DrawFrets(svgElem, state);
    assert svgElem.children == strings + frets;

    if opts.labelText != "" {
      DrawLabel(svgElem, state);
    }
    if opts.showFretNums {
      DrawFretNums(svgElem, state);
    }
  }

  // ---------------------------------------------------------------------------
  // Properties of the passes

  lemma {:induction false} StringLinesAt(st: FretboardState, k: nat, i: int)
    ensures |StringLines(st, k)| == k
    ensures 0 <= i < k ==> StringLines(st, k)[i] == StringLine(st, i)
  {
    if k > 0 {
      StringLinesAt(st, k - 1, i);
    }
  }

  lemma {:induction false} FretLinesAt(st: FretboardState, k: nat, i: int)
    ensures |FretLines(st, k)| == k
    ensures 0 <= i < k ==> FretLines(st, k)[i] == FretLine(st, i)
  {
    if k > 0 {
      FretLinesAt(st, k - 1, i);
    }
  }

  lemma {:induction false} FretNumTextsAt(st: FretboardState, k: nat, i: int)
    ensures |FretNumTexts(st, k)| == k
    ensures 0 <= i < k ==> FretNumTexts(st, k)[i] == FretNumText(st, st.opts.startFret + i)
  {
    if k > 0 {
      FretNumTextsAt(st, k - 1, i);
    }
  }

  /** A line lying on the neck: both its ends are within the margins of the drawing. */
  predicate OnNeck(st: FretboardState, c: Command) {
    var left, right := st.data.xMargin, st.opts.width - st.data.xMargin;
    var top, bottom := st.data.yMargin, st.opts.height - st.data.yMargin;
    c.Line? && left <= c.x1 <= right && left <= c.x2 <= right && top <= c.y1 <= bottom && top <= c.y2 <= bottom
  }

  /** String line i of a drawable fretboard runs down the neck, from the top margin to the bottom margin. */
  lemma StringLineOnNeck(o: Opts, i: int)
    requires WellFormed(o)
    requires 0 <= i < |o.stringNames|
    ensures StringLine(StateOf(o), i).y2 == o.height - StateOf(o).data.yMargin
    ensures OnNeck(StateOf(o), StringLine(StateOf(o), i))
  {
    var st := StateOf(o);
    var d := st.data;
    PositiveMetrics(o);
    ScaleMonotone(i as real, (d.stringCount - 1) as real, d.stringMargin);
    assert StringLine(st, i).x1 == i as real * d.stringMargin + d.xMargin;
    assert (d.stringCount - 1) as real * d.stringMargin + d.xMargin == o.width - d.xMargin;
  }

  /** Fret line i of a drawable fretboard, for i in 0..fretCount, runs across the neck. */
  lemma FretLineOnNeck(o: Opts, i: int)
    requires WellFormed(o)
    requires 0 <= i <= FretCount(o.startFret, o.endFret)
    ensures FretLine(StateOf(o), i).x2 == o.width - StateOf(o).data.xMargin
    ensures OnNeck(StateOf(o), FretLine(StateOf(o), i))
  {
    var st := StateOf(o);
    var d := st.data;
    PositiveMetrics(o);
    ScaleMonotone(i as real, d.fretCount as real, d.fretHeight);
    assert FretLine(st, i).y1 == i as real * d.fretHeight + d.yMargin;
    assert d.fretCount as real * d.fretHeight + d.yMargin == o.height - d.yMargin;
  }

  /**
   * One vertical line per string, each spanning the neck from the top
   * margin to the bottom margin, i string spacings right of the left
   * margin; the first on the neck's left edge, the last on its right edge.
   */
  lemma StringLinesSpanNeck(o: Opts)
    requires WellFormed(o)
    ensures var st := StateOf(o);
      var lines := StringLines(st, st.data.stringCount);
      |lines| == |o.stringNames| &&
      (forall i :: 0 <= i < |lines| ==>
        var x := i as real * st.data.stringMargin + st.data.xMargin;
        lines[i] == Line(x, st.data.yMargin, x, o.height - st.data.yMargin) && OnNeck(st, lines[i])) &&
      lines[0].x1 == st.data.xMargin && lines[|lines| - 1].x1 == o.width - st.data.xMargin
  {
    var st := StateOf(o);
    var n := st.data.stringCount;
    StringLinesAt(st, n, 0);
    forall i | 0 <= i < n
      ensures StringLines(st, n)[i] == StringLine(st, i)
      ensures StringLine(st, i).y2 == o.height - st.data.yMargin && OnNeck(st, StringLine(st, i))
    {
      StringLinesAt(st, n, i);
      StringLineOnNeck(o, i);
    }
    StringLinesAt(st, n, n - 1);
  }

  /**
   * fretCount + 1 horizontal lines, each across the neck, i fret heights
   * below the top margin; the first on the top margin, the last on the
   * bottom margin.
   */
  lemma FretLinesSpanNeck(o: Opts)
    requires WellFormed(o)
    ensures var st := StateOf(o);
      var lines := FretLines(st, FretLineCount(st.data.fretCount));
      |lines| == st.data.fretCount + 1 &&
      (forall i :: 0 <= i < |lines| ==>
        var y := i as real * st.data.fretHeight + st.data.yMargin;
        lines[i] == Line(st.data.xMargin, y, o.width - st.data.xMargin, y) && OnNeck(st, lines[i])) &&
      lines[0].y1 == st.data.yMargin && lines[|lines| - 1].y1 == o.height - st.data.yMargin
  {
    var st := StateOf(o);
    var k := FretLineCount(st.data.fretCount);
    FretLinesAt(st, k, 0);
    forall i | 0 <= i < k
      ensures FretLines(st, k)[i] == FretLine(st, i)
      ensures FretLine(st, i).x2 == o.width - st.data.xMargin && OnNeck(st, FretLine(st, i))
    {
      FretLinesAt(st, k, i);
      FretLineOnNeck(o, i);
    }
    FretLinesAt(st, k, k - 1);
  }

  /** A point of string s lies on string line stringCount - s: the index is mirrored. */
  lemma PointOnStringLine(st: FretboardState, c: FretCoord)
    requires 1 <= c.str <= st.data.stringCount
    ensures 0 <= st.data.stringCount - c.str < st.data.stringCount
    ensures FretCoordPoint(c, st.data).x == StringLine(st, st.data.stringCount - c.str).x1
  {
  }

  /** A point of fret f >= 1 lies strictly between fret lines f - 1 and f; the open position above line 0. */
  lemma PointInFretRow(st: FretboardState, c: FretCoord)
    requires st.data.fretHeight > 0.0
    ensures c.fret == 0 ==> FretCoordPoint(c, st.data).y < FretLine(st, 0).y1
    ensures c.fret != 0 ==>
      FretLine(st, c.fret - 1).y1 < FretCoordPoint(c, st.data).y < FretLine(st, c.fret).y1
  {
    if c.fret == 0 {
      OpenPointAboveNeck(c, st.data);
    } else {
      FrettedPointBetweenFretLines(c, st.data);
    }
  }

  /** The label is centred horizontally, halfway down the top margin. */
  lemma LabelInTopMargin(o: Opts)
    requires WellFormed(o)
    ensures var st := StateOf(o);
      var t := LabelText(st);
      t.Text? && t.body == Label(o.labelText) && t.x == o.width / 2.0 && t.y == st.data.yMargin / 2.0 &&
      0.0 < t.y < st.data.yMargin
  {
    PositiveMetrics(o);
  }

  /**
   * One number per fret of startFret..endFret, in ascending order, each
   * in the left margin beside the last string's point of its fret and a
   * quarter fret lower.
   */
  lemma FretNumTextsPlacement(o: Opts)
    requires WellFormed(o)
    ensures var st := StateOf(o);
      var texts := FretNumTexts(st, FretNumCount(o));
      |texts| == o.endFret - o.startFret + 1 && |FretRange(o.startFret, o.endFret)| == |texts| &&
      forall i :: 0 <= i < |texts| ==>
        texts[i].Text? && texts[i].body == FretNumber(FretRange(o.startFret, o.endFret)[i]) &&
        texts[i].fontSize == Some(FretNumFontSize) &&
        texts[i].x == st.data.xMargin - st.data.fretNumOffset && 0.0 < texts[i].x < st.data.xMargin &&
        texts[i].y == FretCoordPoint(FretCoord(st.data.stringCount, o.startFret + i), st.data).y + st.data.fretHeight / 4.0
  {
    var st := StateOf(o);
    var k := FretNumCount(o);
    FretRangeAt(o.startFret, o.endFret, 0);
    FretNumTextsAt(st, k, 0);
    forall i | 0 <= i < k
      ensures FretNumTexts(st, k)[i] == FretNumText(st, o.startFret + i)
      ensures FretRange(o.startFret, o.endFret)[i] == o.startFret + i
      ensures FretNumText(st, o.startFret + i).x == st.data.xMargin - st.data.fretNumOffset
      ensures 0.0 < FretNumText(st, o.startFret + i).x < st.data.xMargin
    {
      FretNumTextsAt(st, k, i);
      FretRangeAt(o.startFret, o.endFret, i);
      FretNumInLeftMargin(o, o.startFret + i);
    }
  }

  /** A fret number is drawn in the left margin, at a distance of width/18 from the edge. */
  lemma FretNumInLeftMargin(o: Opts, fret: int)
    requires WellFormed(o)
    ensures var d := StateOf(o).data;
      var t := FretNumText(StateOf(o), fret);
      t.x == d.xMargin - d.fretNumOffset == o.width / 18.0 && 0.0 < t.x < d.xMargin
  {
    var d := StateOf(o).data;
    assert Abs(d.stringCount - d.stringCount) == 0;
    assert FretCoordPoint(FretCoord(d.stringCount, fret), d).x == d.xMargin;
  }

  /**
   * There is one fret number per fret row, plus one for the open position
   * when the diagram starts at the nut.
   */
  lemma FretNumCountVsFretCount(o: Opts)
    requires o.endFret >= o.startFret
    ensures FretNumCount(o) == FretCount(o.startFret, o.endFret) + (if o.startFret == 0 then 1 else 0)
  {
  }

  /**
   * The drawing is the four passes' commands, one after the other: which
   * command sits at position `i`.
   */
  lemma {:induction false} DiagramParts(st: FretboardState, i: int)
    ensures var o, cmds := st.opts, Drawing(st);
      var n, k := st.data.stringCount, FretLineCount(st.data.fretCount);
      var l := if o.labelText != "" then 1 else 0;
      var t := if o.showFretNums then FretNumCount(o) else 0;
      |cmds| == n + k + l + t &&
      (0 <= i < n ==> cmds[i] == StringLine(st, i)) &&
      (n <= i < n + k ==> cmds[i] == FretLine(st, i - n)) &&
      (l == 1 && i == n + k ==> cmds[i] == LabelText(st)) &&
      (n + k + l <= i < |cmds| ==> cmds[i] == FretNumText(st, o.startFret + (i - n - k - l)))
  {
    var o, n, k := st.opts, st.data.stringCount, FretLineCount(st.data.fretCount);
    var l := if o.labelText != "" then 1 else 0;
    var strings, frets := StringLines(st, n), FretLines(st, k);
    var title := if o.labelText != "" then [LabelText(st)] else [];
    var nums := if o.showFretNums then FretNumTexts(st, FretNumCount(o)) else [];
    StringLinesAt(st, n, i);
    FretLinesAt(st, k, i - n);
    FretNumTextsAt(st, FretNumCount(o), i - n - k - l);
    assert Drawing(st) == strings + frets + title + nums;
  }

  /**
   * The diagram draws the string lines (vertical), then the fret lines
   * (horizontal), all on the neck, then the label exactly when it is not
   * empty, then the fret numbers exactly when they are asked for.
   */
  lemma DiagramLayout(o: Opts)
    requires WellFormed(o)
    ensures var d := DeriveFretboardData(o);
      var cmds := DiagramCommands(o);
      var n := d.stringCount;
      var f := d.fretCount + 1;
      var l := if o.labelText != "" then 1 else 0;
      |cmds| == n + f + l + (if o.showFretNums then o.endFret - o.startFret + 1 else 0) &&
      (forall i :: 0 <= i < n + f ==> OnNeck(StateOf(o), cmds[i])) &&
      (forall i :: 0 <= i < n ==> cmds[i].x1 == cmds[i].x2) &&
      (forall i :: n <= i < n + f ==> cmds[i].y1 == cmds[i].y2) &&
      (o.labelText != "" ==> cmds[n + f] == LabelText(StateOf(o))) &&
      (forall i :: n + f + l <= i < |cmds| ==> cmds[i].Text? && cmds[i].body.FretNumber?)
  {
    var st := StateOf(o);
    var cmds := DiagramCommands(o);
    var n, k := st.data.stringCount, FretLineCount(st.data.fretCount);
    var l := if o.labelText != "" then 1 else 0;
    assert cmds == Drawing(st);
    assert k == st.data.fretCount + 1;
    DiagramParts(st, n + k);
    forall i | 0 <= i < n
      ensures OnNeck(st, cmds[i]) && cmds[i].x1 == cmds[i].x2
    {
      DiagramParts(st, i);
      assert cmds[i] == StringLine(st, i);
      StringLineOnNeck(o, i);
    }
    forall i | n <= i < n + k
      ensures OnNeck(st, cmds[i]) && cmds[i].y1 == cmds[i].y2
    {
      DiagramParts(st, i);
      assert cmds[i] == FretLine(st, i - n);
      FretLineOnNeck(o, i - n);
    }
    forall i | n + k + l <= i < |cmds|
      ensures cmds[i].Text? && cmds[i].body.FretNumber?
    {
      DiagramParts(st, i);
    }
  }

  /** With the defaults the diagram is six string lines and five fret lines, nothing else. */
  lemma DefaultDiagram()
    ensures var cmds := DiagramCommands(DefaultOpts);
      |cmds| == 11 && forall i :: 0 <= i < |cmds| ==> cmds[i].Line?
  {
    DefaultsWellFormed();
    DefaultLayout();
    DiagramLayout(DefaultOpts);
  }

  // ---------------------------------------------------------------------------
  // Fret numbers past the first position

  /**
   * As written, the fret number of endFret is drawn at its absolute fret
   * position, while the neck only has fretCount rows: from startFret 2 on,
   * the last number falls below the bottom fret line.
   */
  lemma LastFretNumBelowNeck(o: Opts)
    requires WellFormed(o)
    requires o.startFret >= 2
    ensures FretNumText(StateOf(o), o.endFret).y > o.height - DeriveFretboardData(o).yMargin
  {
    var d := DeriveFretboardData(o);
    PositiveMetrics(o);
    var e := o.endFret as real;
    var extra := (o.startFret as real - 1.0) - 3.0 / 8.0;
    assert extra > 0.0;
    assert FretNumText(StateOf(o), o.endFret).y == d.yMargin + (e - 3.0 / 8.0) * d.fretHeight;
    assert o.height - d.yMargin == d.yMargin + (e - o.startFret as real + 1.0) * d.fretHeight;
    assert (e - 3.0 / 8.0) * d.fretHeight - (e - o.startFret as real + 1.0) * d.fretHeight == extra * d.fretHeight;
  }

  /** Frets 5..8 with the other defaults: the number 8 is drawn below the bottom of the drawing. */
  lemma FretNumOffCanvasExample()
    ensures var o := MergeOpts(NoUserOpts.(startFret := Some(5), endFret := Some(8), showFretNums := Some(true)));
      NonZeroDivisors(o) &&
      var cmds := DiagramCommands(o);
      cmds[|cmds| - 1] == FretNumText(StateOf(o), 8) && cmds[|cmds| - 1].y > o.height
  {
    var o := MergeOpts(NoUserOpts.(startFret := Some(5), endFret := Some(8), showFretNums := Some(true)));
    var st := StateOf(o);
    assert st.data.fretHeight == 56.25;
    FretNumTextsAt(st, 4, 3);
    StringLinesAt(st, 6, 0);
    FretLinesAt(st, 5, 0);
  }

  /**
   * The point of a coordinate measured from the diagram's first row: the
   * fret is taken relative to startFret, as the drawing shows rows for
   * startFret..endFret only.
   */
  function ShiftedFretCoordPoint(c: FretCoord, st: FretboardState): Point {
    var p := FretCoordPoint(c, st.data);
    var shift := if st.opts.startFret == 0 then 0.0 else (st.opts.startFret - 1) as real * st.data.fretHeight;
    Point(p.x, p.y - shift)
  }

  /** The fret number of `fret`, placed at its row of the diagram. */
  function ShiftedFretNumText(st: FretboardState, fret: int): Command {
    var p := ShiftedFretCoordPoint(FretCoord(st.data.stringCount, fret), st);
    Text(p.x - st.data.fretNumOffset, p.y + st.data.fretHeight / 4.0, FretNumber(fret), Some(FretNumFontSize))
  }

  /** Diagrams that start at the nut or at fret 1 draw the same numbers either way. */
  lemma ShiftedAgreesInFirstPosition(st: FretboardState, fret: int)
    requires st.opts.startFret == 0 || st.opts.startFret == 1
    ensures ShiftedFretNumText(st, fret) == FretNumText(st, fret)
  {
  }

  /**
   * Placed at its row, every fretted number lies strictly between the fret
   * lines of its row, hence inside the neck, whatever the start fret.
   */
  lemma ShiftedFretNumsInRow(o: Opts, fret: int)
    requires WellFormed(o)
    requires o.startFret <= fret <= o.endFret && fret != 0
    ensures var st := StateOf(o);
      var row := fret - o.startFret + (if o.startFret == 0 then 0 else 1);
      1 <= row <= st.data.fretCount &&
      FretLine(st, row - 1).y1 < ShiftedFretNumText(st, fret).y < FretLine(st, row).y1 &&
      st.data.yMargin < ShiftedFretNumText(st, fret).y < o.height - st.data.yMargin
  {
    var st := StateOf(o);
    PositiveMetrics(o);
    var row := fret - o.startFret + (if o.startFret == 0 then 0 else 1);
    ShiftedInRow(st, fret, row);
  }

  /** The row bounds of a shifted number, for any metrics with a positive fret height. */
  lemma ShiftedInRow(st: FretboardState, fret: int, row: int)
    requires st.data.fretHeight > 0.0 && fret != 0
    requires row == fret - st.opts.startFret + (if st.opts.startFret == 0 then 0 else 1)
    requires 1 <= row <= st.data.fretCount
    ensures FretLine(st, row - 1).y1 < ShiftedFretNumText(st, fret).y < FretLine(st, row).y1
    ensures st.data.yMargin < ShiftedFretNumText(st, fret).y <
      st.data.fretCount as real * st.data.fretHeight + st.data.yMargin
  {
    var ym, fh := st.data.yMargin, st.data.fretHeight;
    ShiftedFretNumRowY(st, fret, row);
    RowBounds(ym, fh, row as real, st.data.fretCount as real);
    assert FretLine(st, row - 1).y1 == (row as real - 1.0) * fh + ym;
    assert FretLine(st, row).y1 == row as real * fh + ym;
  }

  /** The shifted number of `fret` sits 3/8 of a fret above the line closing its row. */
  lemma ShiftedFretNumRowY(st: FretboardState, fret: int, row: int)
    requires fret != 0
    requires row == fret - st.opts.startFret + (if st.opts.startFret == 0 then 0 else 1)
    ensures ShiftedFretNumText(st, fret).y == st.data.yMargin + (row as real - 3.0 / 8.0) * st.data.fretHeight
  {
    var fh := st.data.fretHeight;
    var f := fret as real;
    var shift := if st.opts.startFret == 0 then 0.0 else (st.opts.startFret - 1) as real;
    assert row as real == f - shift;
    assert ShiftedFretNumText(st, fret).y == f * fh - fh / 2.0 + st.data.yMargin - fh / 8.0 - shift * fh + fh / 4.0;
    assert f * fh - shift * fh == (f - shift) * fh;
  }

  /** A point 3/8 of a row above line r lies strictly inside row r, hence inside rows 1..fc. */
  lemma RowBounds(ym: real, fh: real, r: real, fc: real)
    requires fh > 0.0 && 1.0 <= r <= fc
    ensures (r - 1.0) * fh + ym < ym + (r - 3.0 / 8.0) * fh < r * fh + ym
    ensures ym < ym + (r - 3.0 / 8.0) * fh < fc * fh + ym
  {
    assert (r - 3.0 / 8.0) * fh == r * fh - 3.0 / 8.0 * fh;
    assert (r - 1.0) * fh == r * fh - fh;
    ScaleMonotone(r - 1.0, r, fh);
    ScaleMonotone(r, fc, fh);
  }
}
