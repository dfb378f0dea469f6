# Fretboard diagram layout, modelled in Dafny

This project models the live core of the fretboard-diagram library. That
core computes a stringed-instrument fretboard as a vector drawing. The
caller's options are merged over the defaults (a six-string guitar, frets
1..4). From them the library derives the layout metrics: margins, neck
size, string spacing, fret count and fret height. It then appends drawing
primitives to an svg element in a fixed order: one vertical line per
string, one horizontal line per fret boundary, the title label if there is
one, and the fret numbers if asked for. A (string, fret) coordinate is
mapped to a point of the drawing by a small formula. The string index is
mirrored through `|string - stringCount|`, and fretted positions are
nudged up by an eighth of a fret.

Modules (one file each):

- `Wrappers` (`wrappers.dfy`): `Option`, for option keys the caller may leave out.
- `Types` (`types.dfy`): the record shapes `Point`, `FretCoord`, `Dot`, `Opts`, `UserOpts`,
  `FretboardData` and `FretboardState`. The source's `string` and `label` keys are
  reserved words in Dafny, so they are named `str` and `labelText`.
- `Svg` (`svg.dfy`): the drawing surface. `SvgElement` is a class whose child list is a
  `seq<Command>`. A `Command` is an abstract `Line(x1, y1, x2, y2)` or
  `Text(x, y, body, fontSize)`; a fret number's text carries the integer fret.
- `Options` (`options.dfy`): the defaults and the merge `{...DEFAULT_OPTS, ...userOpts}`.
- `Geometry` (`geometry.dfy`): `DeriveFretboardData` (the source's `fretboardData`),
  `FretCoordPoint`, and their properties.
- `Composer` (`composer.dfy`): the draw passes as methods. The string, fret and
  fret-number passes are loops that append to the element. Each is specified by a
  function that gives the commands of its first k iterations. The label pass appends a
  single text. The module also holds `MakeFretboardDiagram` and the properties of the
  whole drawing.

Lengths are exact `real`s; string and fret indices are `int`s. The source never
validates its options: it divides by `stringCount - 1` and by `fretCount`.
The model therefore asks only for those divisors to be non-zero
(`NonZeroDivisors`). Lemmas about bounds also assume a drawable fretboard
(`WellFormed`): positive width and height, at least two strings and a
positive fret count.

The model follows the code in three places worth naming:

- With the defaults `startFret = 1`, `endFret = 4`, the fret count is 4
  (src/index.ts:49-50; `FretCountExamples`, `DefaultLayout`).
- Invalid options raise no error; the model states them as preconditions.
- The live diagram draws neither dots nor string names (src/index.ts:64-68).

## Model

| member | source | states |
|---|---|---|
| `Geometry.DeriveFretboardData` | src/index.ts:36-57 | the margins and the neck partition the width and the height; the neck is 2/3 of the width, and 3/4 of the height without a label or 5/8 with one; string spacing times (stringCount - 1) is the neck width; fret height times fretCount is the neck height; the fret-number offset is a sixth of the neck width; stringCount and fretCount follow the options |
| `Geometry.FretCount` | src/index.ts:49-50 | for startFret <= endFret: endFret - startFret rows when the diagram starts at the nut (fret 0), and one more row otherwise |
| `Geometry.FretCoordPoint` | src/index.ts:124-134 | string s in 1..stringCount sits (stringCount - s) string spacings right of xMargin; the open position is half a fret above yMargin; fret f != 0 sits at yMargin + (f - 5/8)·fretHeight |
| `Geometry.TopMargin` | src/index.ts:40-41 | the top margin is height/8 without a label and 1.5·height/8 with one |
| `Geometry.FretCountExamples` | src/index.ts:49-50 | frets 1..4 give 4 rows, 0..3 give 3, 0..4 give 4 |
| `Geometry.FretRangeAt` | src/index.ts:114 | the frets startFret..endFret, in ascending order: endFret - startFret + 1 of them, the i-th being startFret + i |
| `Geometry.FretCountIsFrettedPositions` | src/index.ts:49-50 | for 0 <= startFret <= endFret, the fret count is the number of frets in the range other than the open position 0 |
| `Geometry.PositiveMetrics` | src/index.ts:39-52 | for a drawable fretboard, every margin, the neck, both spacings and the fret-number offset are positive |
| `Geometry.PointWithinNeckWidth` | src/index.ts:128-129 | for strings 1..stringCount the x of a point lies in [xMargin, width - xMargin]; the last string is at xMargin and string 1 at width - xMargin |
| `Geometry.OpenPointAboveNeck` | src/index.ts:130-131 | at fret 0 the y is yMargin - fretHeight/2, above the top fret line |
| `Geometry.FrettedPointBetweenFretLines` | src/index.ts:130-131 | at fret f != 0 the y is yMargin + (f - 5/8)·fretHeight, strictly between fret lines f - 1 and f |
| `Geometry.PointYIncreasing` | src/index.ts:130-131 | with a positive fret height, a higher fret gives a strictly lower point |
| `Geometry.PointCoordinatesSeparate` | src/index.ts:124-134 | x depends on the string alone and y on the fret alone |
| `Geometry.DefaultsWellFormed` | src/index.ts:20-34 | the defaults describe a drawable fretboard |
| `Geometry.DefaultLayout` | src/index.ts:20-57 | the default guitar's metrics: xMargin 100/3, yMargin 37.5, neck 400/3 × 225, string spacing 80/3, 4 frets of height 56.25, offset 200/9 |
| `Geometry.LabelledLayout` | src/index.ts:40-51 | a label gives yMargin 56.25, neck height 187.5 and fret height 46.875 |
| `Geometry.OpenPositionLayout` | src/index.ts:49-51 | frets 0..3 give 3 rows of height 75 |
| `Options.MergeNothingIsDefault` | src/index.ts:20-34 | with no option given the merged options are the defaults |
| `Options.MergeEverythingIsGiven` | src/index.ts:60 | with every option given the merged options are exactly the caller's |
| `Options.MergeOpts` | src/index.ts:60 | key by key, an option given overrides its default and an option left out keeps its value in `DEFAULT_OPTS` (200, 300, 1, 4, false, E B G D A E, false, no dots, white, false, white, empty label) |
| `Svg.SvgElement.constructor` | src/index.ts:61 | a new element has the given size and no children |
| `Svg.SvgElement.AppendChild` | src/index.ts:79 | the child list grows by the appended command at the end |
| `Composer.StringLine` | src/index.ts:77-78 | string line i is vertical, i string spacings right of xMargin, and runs from yMargin for one neck height |
| `Composer.FretLine` | src/index.ts:87-90 | fret line i is horizontal, i fret heights below yMargin, from xMargin to width - xMargin, symmetric about the centre |
| `Composer.LabelText` | src/index.ts:97-99 | the label is a text of the label option in the default font size, centred horizontally, halfway down the top margin |
| `Composer.FretNumText` | src/index.ts:115-116 | the number of a fret is a text carrying that fret in font size 16, at x = xMargin - fretNumOffset; at yMargin - fretHeight/4 for the open position and at yMargin + (f - 3/8)·fretHeight for fret f != 0 |
| `Composer.DrawStrings` | src/index.ts:73-81 | appends exactly the stringCount string lines, in index order, after the existing children |
| `Composer.DrawFrets` | src/index.ts:83-93 | appends exactly the fretCount + 1 fret lines, in index order (none if fretCount is negative) |
| `Composer.DrawLabel` | src/index.ts:95-101 | appends the one label text |
| `Composer.DrawFretNums` | src/index.ts:106-119 | appends one fret-number text per fret of startFret..endFret, in that order |
| `Composer.MakeFretboardDiagram` | src/index.ts:59-71 | returns a fresh element sized by the merged options, whose children are the strings, then the frets, then the label if it is not empty, then the fret numbers if they are shown |
| `Composer.StringLinesAt` | src/index.ts:76-80 | the first k iterations append k lines, the i-th being string line i |
| `Composer.FretLinesAt` | src/index.ts:86-92 | the first k iterations append k lines, the i-th being fret line i |
| `Composer.FretNumTextsAt` | src/index.ts:114-118 | the first k iterations append k texts, the i-th being the number of fret startFret + i |
| `Composer.StringLinesSpanNeck` | src/index.ts:76-80 | stringCount vertical lines at x = i·stringMargin + xMargin, within [xMargin, width - xMargin], each from yMargin to height - yMargin; the first at xMargin, the last at width - xMargin |
| `Composer.FretLinesSpanNeck` | src/index.ts:86-92 | fretCount + 1 horizontal lines from xMargin to width - xMargin at y = i·fretHeight + yMargin, within [yMargin, height - yMargin]; the first at yMargin, the last at height - yMargin |
| `Composer.StringLineOnNeck` | src/index.ts:76-80 | string line i, for i in 0..stringCount - 1, runs from the top margin to height - yMargin, with both ends within the neck |
| `Composer.FretLineOnNeck` | src/index.ts:86-92 | fret line i, for i in 0..fretCount, runs from xMargin to width - xMargin, with both ends within the neck |
| `Composer.PointOnStringLine` | src/index.ts:128-129 | the point of string s lies on string line stringCount - s |
| `Composer.PointInFretRow` | src/index.ts:130-131 | the open position lies above fret line 0; a fret f != 0 lies strictly between fret lines f - 1 and f |
| `Composer.LabelInTopMargin` | src/index.ts:95-101 | the label shows the label text at (width/2, yMargin/2), inside the top margin |
| `Composer.FretNumTextsPlacement` | src/index.ts:106-119 | endFret - startFret + 1 texts carry the frets in ascending order, in font size 16, at x = xMargin - fretNumOffset (inside the left margin) and a quarter fret below the last string's point of their fret |
| `Composer.FretNumInLeftMargin` | src/index.ts:112-116 | a fret number is drawn at x = xMargin - fretNumOffset = width/18, inside the left margin |
| `Composer.DiagramParts` | src/index.ts:59-71 | for any state, the drawing is the string lines, the fret lines, the label (only when not empty) and the fret numbers (only when shown), one after the other: position i holds string line i, fret line i - stringCount, the label, or the number of fret startFret + (its offset among the numbers) |
| `Composer.FretNumCountVsFretCount` | src/index.ts:49-50 | there is one fret number per fret row, plus one for the open position when the diagram starts at the nut |
| `Composer.DiagramLayout` | src/index.ts:59-71 | the drawing has stringCount + fretCount + 1 lines, all on the neck: vertical ones first, then horizontal ones; then the label exactly when it is not empty; then only fret-number texts, exactly when they are shown |
| `Composer.DefaultDiagram` | src/index.ts:59-71 | with the defaults the drawing is 11 lines and nothing else |
| `Composer.LastFretNumBelowNeck` | src/index.ts:114-116 | as written, from startFret 2 on, the last fret number falls below the bottom fret line |
| `Composer.FretNumOffCanvasExample` | src/index.ts:114-116 | as written, with frets 5..8 the number 8 is drawn below the bottom of the drawing |
| `Composer.ShiftedAgreesInFirstPosition` | src/index.ts:124-134 | when the diagram starts at fret 0 or 1, the fret numbers placed by row are the ones the code draws |
| `Composer.ShiftedFretNumRowY` | src/index.ts:269-283 | placed by its row r, a fretted number is drawn 3/8 of a fret above fret line r |
| `Composer.ShiftedInRow` | src/index.ts:269-283 | for any metrics with a positive fret height, a number placed in row r in 1..fretCount lies strictly between fret lines r - 1 and r |
| `Composer.ShiftedFretNumsInRow` | src/index.ts:269-283 | placed by its row, every fretted number lies strictly between the fret lines of its row, inside the neck, whatever the start fret |

## Left out

- The svg construction (`makeSvgElement`, `makeLine`, `makeText` of `./svg`, and all of
  `src/svg-utils.ts`) is DOM plumbing. The `./svg` file is not part of this model. Its
  primitives are abstract `Command` values; stroke colours and the default font size are
  not modelled.
- `cursorPoint` inverts the screen transformation matrix of the browser: a foreign call
  on floating point.
- `distanceBetween` is a floating-point square root and is not used by the live code.
- The commented-out `FretboardDiagram` class (dots, string names, hover dot, nearest-fret
  search, click handling) is dead code. Only its `getPoint` start-fret shift is used, as
  the corrected placement under Findings.
- The `onClick` option is a callback that the live code never calls. It is not a field of
  `Opts`.
- Dots, dot colours, string names and the hover dot are carried in `Opts` but never drawn.
  The live diagram does not draw them.
- JavaScript numbers are IEEE doubles. The model uses exact reals, so rounding is not
  captured. `fret.toString()` is modelled as the integer fret carried by the text.
- `MergeOpts`: a key given with the value `undefined` overrides its default with `undefined`
  in JavaScript. The model treats a key as either given with a value or left out.
- `DeriveFretboardData`: division by zero, which JavaScript turns into infinities or NaN,
  is excluded by its precondition rather than modelled.

## Findings

| source | as written | input that shows it | evidently intended | confidence | as-written member | corrected member |
|---|---|---|---|---|---|---|
| src/index.ts:114-116 | the fret numbers are placed at `fretCoordPoint({string, fret})` with the absolute fret, while the neck only has rows for startFret..endFret | `startFret: 5, endFret: 8, showFretNums: true`, other options default: the number 8 is drawn at y = 466.40625 on a drawing 300 high | for startFret >= 1, place fret f in its row f - startFret + 1, as the removed `getPoint` did with its shift by (startFret - 1)·fretHeight (src/index.ts:275-276); a diagram starting at the nut keeps the unshifted rows; startFret is documented as the top fret on the diagram (src/index.ts:158) | medium, not executed | `Composer.LastFretNumBelowNeck`, `Composer.FretNumOffCanvasExample` | `Composer.ShiftedFretNumsInRow` (on `Composer.ShiftedFretNumText`) |

`MakeFretboardDiagram` keeps the placement as written, because the model follows the
code. The corrected placement `ShiftedFretNumText` agrees with it whenever the diagram
starts at fret 0 or 1 (`ShiftedAgreesInFirstPosition`). For startFret 0 it applies no
shift; the removed `getPoint` would have shifted by -fretHeight there, which is not
taken over, because the live fret count already gives the nut no row of its own.
