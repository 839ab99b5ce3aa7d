/** Window-inset strategies: a view's padding (or margins) set to the values it had when
    the strategy first ran, plus the inset on every enabled side. */
module Insets {
  import opened KotlinStd
  import opened EdgeConfig

  /** `androidx.core.graphics.Insets`, and the padding or margins of a view. */
  datatype Insets = Insets(left: int, top: int, right: int, bottom: int)

  /** The sides a strategy adds insets to. */
  datatype Sides = Sides(top: bool, bottom: bool, left: bool, right: bool)

  /** Both strategies' constructor defaults: every side. */
  const ALL_SIDES: Sides := Sides(true, true, true, true)

  /** The part of a view the strategies and listeners write. */
  class View {
    var padding: Insets
    /** Whether the layout params are `MarginLayoutParams`. */
    const hasMarginParams: bool
    var margin: Insets
    var layoutHeight: int

    constructor (padding: Insets, hasMarginParams: bool, margin: Insets, layoutHeight: int)
      ensures this.padding == padding && this.hasMarginParams == hasMarginParams
      ensures this.margin == margin && this.layoutHeight == layoutHeight
    {
      this.padding := padding;
      this.hasMarginParams := hasMarginParams;
      this.margin := margin;
      this.layoutHeight := layoutHeight;
    }
  }

  /** The original values plus the inset on each enabled side. */
  function Offset(original: Insets, insets: Insets, sides: Sides): (r: Insets)
    ensures r.left == original.left + (if sides.left then insets.left else 0)
    ensures r.top == original.top + (if sides.top then insets.top else 0)
    ensures r.right == original.right + (if sides.right then insets.right else 0)
    ensures r.bottom == original.bottom + (if sides.bottom then insets.bottom else 0)
  {
    Insets(original.left + (if sides.left then insets.left else 0),
           original.top + (if sides.top then insets.top else 0),
           original.right + (if sides.right then insets.right else 0),
           original.bottom + (if sides.bottom then insets.bottom else 0))
  }

  /** One dispatch of a capture-once strategy: the captured original (taken from the
      current values the first time only) and the values written. */
  function Dispatch(captured: Option<Insets>, current: Insets, insets: Insets, sides: Sides): (r: (Insets, Insets))
    ensures r.0 == (if captured.Some? then captured.value else current)
    ensures r.1 == Offset(r.0, insets, sides)
  {
    var original := captured.GetOr(current);
    (original, Offset(original, insets, sides))
  }

  /** `PaddingInsetsStrategy`. */
  class PaddingInsetsStrategy {
    const sides: Sides
    var originalPadding: Option<Insets>

    constructor (sides: Sides)
      ensures this.sides == sides && originalPadding.None?
    {
      this.sides := sides;
      originalPadding := None;
    }

    /** `apply`: captures the padding on the first call, then writes original + insets. */
    method Apply(view: View, insets: Insets)
      modifies this`originalPadding, view`padding
      ensures var (original, written) := Dispatch(old(originalPadding), old(view.padding), insets, sides);
        originalPadding == Some(original) && view.padding == written
    {
      if originalPadding.None? {
        originalPadding := Some(view.padding);
      }
      var original := originalPadding.value;
      view.padding := Insets(original.left + (if sides.left then insets.left else 0),
                             original.top + (if sides.top then insets.top else 0),
                             original.right + (if sides.right then insets.right else 0),
                             original.bottom + (if sides.bottom then insets.bottom else 0));
    }
  }

  /** `MarginInsetsStrategy`. */
  class MarginInsetsStrategy {
    const sides: Sides
    var originalMargin: Option<Insets>

    constructor (sides: Sides)
      ensures this.sides == sides && originalMargin.None?
    {
      this.sides := sides;
      originalMargin := None;
    }

    /** `apply`: nothing at all (not even the capture) without margin layout params;
        otherwise the padding strategy's rule applied to the margins. */
    method Apply(view: View, insets: Insets)
      modifies this`originalMargin, view`margin
      ensures !view.hasMarginParams ==> originalMargin == old(originalMargin) && view.margin == old(view.margin)
      ensures view.hasMarginParams ==>
        var (original, written) := Dispatch(old(originalMargin), old(view.margin), insets, sides);
        originalMargin == Some(original) && view.margin == written
    {
      if !view.hasMarginParams {
        return;
      }
      if originalMargin.None? {
        originalMargin := Some(view.margin);
      }
      var original := originalMargin.value;
      view.margin := Insets(original.left + (if sides.left then insets.left else 0),
                            original.top + (if sides.top then insets.top else 0),
                            original.right + (if sides.right then insets.right else 0),
                            original.bottom + (if sides.bottom then insets.bottom else 0));
    }
  }

  // ------------------------------------------------------------ inset type mask

  /** The `WindowInsetsCompat.Type` bits the mask is built from. */
  const STATUS_BARS: bv32 := 1
  const NAVIGATION_BARS: bv32 := 2
  const IME: bv32 := 8
  const DISPLAY_CUTOUT: bv32 := 128

  /** `getInsetTypeMask`: one bit per fit flag that is set, and no other bit. */
  method GetInsetTypeMask(config: Config) returns (typeMask: bv32)
    ensures (typeMask & STATUS_BARS != 0) <==> config.fitStatusBar
    ensures (typeMask & NAVIGATION_BARS != 0) <==> config.fitNavigationBar
    ensures (typeMask & IME != 0) <==> config.fitIme
    ensures (typeMask & DISPLAY_CUTOUT != 0) <==> config.fitDisplayCutout
    ensures typeMask & !(STATUS_BARS | NAVIGATION_BARS | IME | DISPLAY_CUTOUT) == 0
    ensures typeMask == 0 <==>
      !config.fitStatusBar && !config.fitNavigationBar && !config.fitIme && !config.fitDisplayCutout
  {
    typeMask := 0;
    if config.fitStatusBar {
      typeMask := typeMask | STATUS_BARS;
    }
    if config.fitNavigationBar {
      typeMask := typeMask | NAVIGATION_BARS;
    }
    if config.fitIme {
      typeMask := typeMask | IME;
    }
    if config.fitDisplayCutout {
      typeMask := typeMask | DISPLAY_CUTOUT;
    }
  }

  /** The sides `applyPaddingInsets` / `applyMarginInsets` use: top follows the status
      bar flag and bottom the navigation bar flag unless the caller overrides them; left
      and right are always on. */
  function HelperSides(config: Config, applyTop: Option<bool>, applyBottom: Option<bool>): (s: Sides)
    ensures s.left && s.right
    ensures applyTop.None? ==> s.top == config.fitStatusBar
    ensures applyBottom.None? ==> s.bottom == config.fitNavigationBar
    ensures applyTop.Some? ==> s.top == applyTop.value
    ensures applyBottom.Some? ==> s.bottom == applyBottom.value
  {
    Sides(applyTop.GetOr(config.fitStatusBar), applyBottom.GetOr(config.fitNavigationBar), true, true)
  }

  /** `applyPaddingInsets`: the strategy its listener runs on every dispatch. */
  method ApplyPaddingInsets(config: Config, applyTop: Option<bool>, applyBottom: Option<bool>)
    returns (strategy: PaddingInsetsStrategy)
    ensures fresh(strategy) && strategy.originalPadding.None?
    ensures strategy.sides == HelperSides(config, applyTop, applyBottom)
  {
    strategy := new PaddingInsetsStrategy(Sides(applyTop.GetOr(config.fitStatusBar),
                                                applyBottom.GetOr(config.fitNavigationBar), true, true));
  }

  /** `applyMarginInsets`. */
  method ApplyMarginInsets(config: Config, applyTop: Option<bool>, applyBottom: Option<bool>)
    returns (strategy: MarginInsetsStrategy)
    ensures fresh(strategy) && strategy.originalMargin.None?
    ensures strategy.sides == HelperSides(config, applyTop, applyBottom)
  {
    strategy := new MarginInsetsStrategy(Sides(applyTop.GetOr(config.fitStatusBar),
                                               applyBottom.GetOr(config.fitNavigationBar), true, true));
  }

  // ------------------------------------------------------------ lemmas

  /** Dispatching the same insets again writes the same values: nothing accumulates, and
      an edit made to the view in between is overwritten relative to the first capture. */
  lemma RepeatedDispatchIsStable(captured: Option<Insets>, current: Insets, edited: Insets,
                                                    insets: Insets, sides: Sides)
    ensures var (original, written) := Dispatch(captured, current, insets, sides);
      Dispatch(Some(original), edited, insets, sides) == (original, written)
  {
  }

  /** The original is captured only by the first dispatch: later ones keep it, whatever
      the insets and the view's values. */
  lemma CaptureOnlyOnce(original: Insets, current: Insets, insets: Insets, sides: Sides)
    ensures Dispatch(Some(original), current, insets, sides).0 == original
  {
  }

  /** With every side disabled a dispatch restores the original values; with zero insets
      too. */
  lemma NoSidesOrNoInsetsRestoresOriginal(original: Insets, insets: Insets, sides: Sides)
    requires sides == Sides(false, false, false, false) || insets == Insets(0, 0, 0, 0)
    ensures Offset(original, insets, sides) == original
  {
  }
}
