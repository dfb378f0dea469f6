/**
 * The record shapes of the fretboard diagram: the options a caller gives,
 * the coordinates it speaks in, and the layout metrics derived from them.
 * JavaScript numbers are modelled as exact reals for lengths and as
 * integers for string and fret indices.
 */
module Types {
  import opened Wrappers

  /** A point relative to the top left of the drawing. */
  datatype Point = Point(x: real, y: real)

  /**
   * A string and fret on the fretboard. `str` is the record's `string`
   * key (a reserved word in Dafny).
   */
  datatype FretCoord = FretCoord(str: int, fret: int)

  /** A fret coordinate with an optional colour: a dot drawn on the fretboard. */
  datatype Dot = Dot(str: int, fret: int, color: Option<string>)

  /**
   * The settings used by a fretboard diagram (the click callback is not
   * modelled). `labelText` is the `label` key (a reserved word in Dafny).
   */
  datatype Opts = Opts(
    width: real,
    height: real,
    startFret: int,
    endFret: int,
    showFretNums: bool,
    stringNames: seq<string>,
    showStringNames: bool,
    dots: seq<Dot>,
    dotColor: string,
    drawDotOnHover: bool,
    hoverDotColor: string,
    labelText: string)

  /** The options given by the caller: every key may be left out. */
  datatype UserOpts = UserOpts(
    width: Option<real>,
    height: Option<real>,
    startFret: Option<int>,
    endFret: Option<int>,
    showFretNums: Option<bool>,
    stringNames: Option<seq<string>>,
    showStringNames: Option<bool>,
    dots: Option<seq<Dot>>,
    dotColor: Option<string>,
    drawDotOnHover: Option<bool>,
    hoverDotColor: Option<string>,
    labelText: Option<string>)

  /** Fretboard metrics calculated from the options. */
  datatype FretboardData = FretboardData(
    xMargin: real,
    yMargin: real,
    neckWidth: real,
    neckHeight: real,
    stringCount: nat,
    stringMargin: real,
    fretCount: int,
    fretHeight: real,
    fretNumOffset: real)

  /** The options together with the metrics derived from them. */
  datatype FretboardState = FretboardState(opts: Opts, data: FretboardData)
}
