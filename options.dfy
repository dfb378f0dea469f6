/**
 * The default options (a six-string guitar in standard tuning) and the
 * merge that lets every option the caller gives override its default.
 */
module Options {
  import opened Wrappers
  import opened Types

  const DefaultStringNames: seq<string> := ["E", "B", "G", "D", "A", "E"]

  const DefaultOpts: Opts := Opts(
    width := 200.0,
    height := 300.0,
    startFret := 1,
    endFret := 4,
    showFretNums := false,
    stringNames := DefaultStringNames,
    showStringNames := false,
    dots := [],
    dotColor := "white",
    drawDotOnHover := false,
    hoverDotColor := "white",
    labelText := "")

  /**
   * The caller's options laid over the defaults, key by key: each option
   * given overrides its default, each option left out keeps it.
   */
  function MergeOpts(u: UserOpts): (o: Opts)
    ensures u.width.Some? ==> o.width == u.width.value
    ensures u.width.None? ==> o.width == 200.0
    ensures u.height.Some? ==> o.height == u.height.value
    ensures u.height.None? ==> o.height == 300.0
    ensures u.startFret.Some? ==> o.startFret == u.startFret.value
    ensures u.startFret.None? ==> o.startFret == 1
    ensures u.endFret.Some? ==> o.endFret == u.endFret.value
    ensures u.endFret.None? ==> o.endFret == 4
    ensures u.showFretNums.Some? ==> o.showFretNums == u.showFretNums.value
    ensures u.showFretNums.None? ==> o.showFretNums == false
    ensures u.stringNames.Some? ==> o.stringNames == u.stringNames.value
    ensures u.stringNames.None? ==> o.stringNames == ["E", "B", "G", "D", "A", "E"]
    ensures u.showStringNames.Some? ==> o.showStringNames == u.showStringNames.value
    ensures u.showStringNames.None? ==> o.showStringNames == false
    ensures u.dots.Some? ==> o.dots == u.dots.value
    ensures u.dots.None? ==> o.dots == []
    ensures u.dotColor.Some? ==> o.dotColor == u.dotColor.value
    ensures u.dotColor.None? ==> o.dotColor == "white"
    ensures u.drawDotOnHover.Some? ==> o.drawDotOnHover == u.drawDotOnHover.value
    ensures u.drawDotOnHover.None? ==> o.drawDotOnHover == false
    ensures u.hoverDotColor.Some? ==> o.hoverDotColor == u.hoverDotColor.value
    ensures u.hoverDotColor.None? ==> o.hoverDotColor == "white"
    ensures u.labelText.Some? ==> o.labelText == u.labelText.value
    ensures u.labelText.None? ==> o.labelText == ""
  {
    Opts(
      width := u.width.GetOr(DefaultOpts.width),
      height := u.height.GetOr(DefaultOpts.height),
      startFret := u.startFret.GetOr(DefaultOpts.startFret),
      endFret := u.endFret.GetOr(DefaultOpts.endFret),
      showFretNums := u.showFretNums.GetOr(DefaultOpts.showFretNums),
      stringNames := u.stringNames.GetOr(DefaultOpts.stringNames),
      showStringNames := u.showStringNames.GetOr(DefaultOpts.showStringNames),
      dots := u.dots.GetOr(DefaultOpts.dots),
      dotColor := u.dotColor.GetOr(DefaultOpts.dotColor),
      drawDotOnHover := u.drawDotOnHover.GetOr(DefaultOpts.drawDotOnHover),
      hoverDotColor := u.hoverDotColor.GetOr(DefaultOpts.hoverDotColor),
      labelText := u.labelText.GetOr(DefaultOpts.labelText))
  }

  /** The caller gives no option at all. */
  const NoUserOpts: UserOpts := UserOpts(None, None, None, None, None, None, None, None, None, None, None, None)

  /** The caller gives every option, with the values of `o`. */
  function AllUserOpts(o: Opts): UserOpts {
    UserOpts(Some(o.width), Some(o.height), Some(o.startFret), Some(o.endFret), Some(o.showFretNums),
             Some(o.stringNames), Some(o.showStringNames), Some(o.dots), Some(o.dotColor),
             Some(o.drawDotOnHover), Some(o.hoverDotColor), Some(o.labelText))
  }

  /** With no option given, the merge is the defaults. */
  lemma MergeNothingIsDefault()
    ensures MergeOpts(NoUserOpts) == DefaultOpts
  {
  }

  /** With every option given, the defaults play no part. */
  lemma MergeEverythingIsGiven(o: Opts)
    ensures MergeOpts(AllUserOpts(o)) == o
  {
  }
}
