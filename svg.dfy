/**
 * The drawing surface, reduced to what the diagram does with it: it is
 * created with a size and it collects, in order, the primitives appended
 * to it. A primitive is an abstract command rather than a DOM element.
 */
module Svg {
  import opened Wrappers

  /** What a text primitive shows: a label, or a fret number. */
  datatype TextBody = Label(text: string) | FretNumber(fret: int)

  /** A drawing primitive; a text without a font size uses the surface's default. */
  datatype Command =
    | Line(x1: real, y1: real, x2: real, y2: real)
    | Text(x: real, y: real, body: TextBody, fontSize: Option<nat>)

  /** The svg element: its size and its child list. */
  class SvgElement {
    const width: real
    const height: real
    var children: seq<Command>

    /** A new, empty element of the given size. */
    constructor (width: real, height: real)
      ensures this.width == width && this.height == height
      ensures children == []
    {
      this.width := width;
      this.height := height;
      children := [];
    }

    /** Appends `c` as the last child. */
    method AppendChild(c: Command)
      modifies this
      ensures children == old(children) + [c]
    {
      children := children + [c];
    }
  }
}
