/** ScalePageTransformer: pages of the viewer's pager shrink and fade as they move away
    from the centre. Only the piecewise arithmetic is modelled: the page properties it
    writes are returned as a value. */
module PageTransformer {
  import opened KotlinStd

  /** The transformer's two parameters. */
  datatype ScalePageTransformer = ScalePageTransformer(minScale: real, minAlpha: real)

  /** The constructor defaults. */
  const DEFAULT_TRANSFORMER: ScalePageTransformer := ScalePageTransformer(0.85, 0.5)

  /** The page's size and the four properties `transformPage` may write. */
  datatype Page = Page(width: int, height: int, alpha: real, scaleX: real, scaleY: real, translationX: real)

  /** `maxOf(minScale, 1 - abs(position))`. */
  function ScaleFactor(t: ScalePageTransformer, position: real): (s: real)
    ensures s >= t.minScale && s >= 1.0 - Abs(position)
    ensures s == t.minScale || s == 1.0 - Abs(position)
  {
    MaxReal(t.minScale, 1.0 - Abs(position))
  }

  /** The alpha of a page drawn at `scaleFactor`: `minAlpha` at `minScale`, rising
      linearly to 1 at full size. */
  function AlphaFor(t: ScalePageTransformer, scaleFactor: real): (a: real)
    requires t.minScale != 1.0
    ensures scaleFactor == t.minScale ==> a == t.minAlpha
    ensures scaleFactor == 1.0 ==> a == 1.0
  {
    var span := 1.0 - t.minScale;
    DivSelf(span);
    t.minAlpha + (scaleFactor - t.minScale) / span * (1.0 - t.minAlpha)
  }

  /** The horizontal shift of a page: the horizontal margin the shrinking frees, less half
      the vertical one, towards the centre. */
  function Translation(page: Page, scaleFactor: real, position: real): real {
    var vertMargin := page.height as real * (1.0 - scaleFactor) / 2.0;
    var horzMargin := page.width as real * (1.0 - scaleFactor) / 2.0;
    if position < 0.0 then horzMargin - vertMargin / 2.0 else -horzMargin + vertMargin / 2.0
  }

  /** `transformPage(page, position)`: a page more than one page away is made
      transparent and nothing else is touched; a nearer one is scaled uniformly by
      `ScaleFactor`, shifted, and faded according to its scale. */
  function TransformPage(t: ScalePageTransformer, page: Page, position: real): (r: Page)
    requires t.minScale != 1.0
    ensures position < -1.0 || position > 1.0 ==> r == page.(alpha := 0.0)
    ensures -1.0 <= position <= 1.0 ==>
      r.width == page.width && r.height == page.height
      && r.scaleX == r.scaleY == ScaleFactor(t, position)
      && r.alpha == AlphaFor(t, ScaleFactor(t, position))
      && r.translationX == Translation(page, ScaleFactor(t, position), position)
  {
    if position < -1.0 then page.(alpha := 0.0)
    else if position <= 1.0 then
      var scaleFactor := ScaleFactor(t, position);
      page.(translationX := Translation(page, scaleFactor, position),
            scaleX := scaleFactor, scaleY := scaleFactor,
            alpha := AlphaFor(t, scaleFactor))
    else page.(alpha := 0.0)
  }

  // ------------------------------------------------------------ lemmas

  /** The centred page is shown at full size, fully opaque and unshifted. */
  lemma CentredPageIsUntouchedInSize(t: ScalePageTransformer, page: Page)
    requires t.minScale < 1.0
    ensures var r := TransformPage(t, page, 0.0);
      r.scaleX == 1.0 && r.scaleY == 1.0 && r.alpha == 1.0 && r.translationX == 0.0
  {
    assert ScaleFactor(t, 0.0) == 1.0;
  }

  /** A page exactly one page away, with a non-negative minimum scale, is at the minimum
      scale and the minimum alpha. */
  lemma AdjacentPageIsAtMinimum(t: ScalePageTransformer, page: Page, position: real)
    requires 0.0 <= t.minScale < 1.0 && (position == 1.0 || position == -1.0)
    ensures var r := TransformPage(t, page, position);
      r.scaleX == t.minScale && r.alpha == t.minAlpha
  {
    assert ScaleFactor(t, position) == t.minScale;
  }

  /** Pages at `position` and `-position` are scaled and faded alike, and shifted by
      opposite amounts. */
  lemma MirroredPagesAreSymmetric(t: ScalePageTransformer, page: Page, position: real)
    requires t.minScale < 1.0 && -1.0 <= position <= 1.0
    ensures var r, m := TransformPage(t, page, position), TransformPage(t, page, -position);
      m.scaleX == r.scaleX && m.scaleY == r.scaleY && m.alpha == r.alpha
      && m.translationX == -r.translationX
  {
    var s := ScaleFactor(t, position);
    assert Abs(-position) == Abs(position);
    assert ScaleFactor(t, -position) == s;
    if position == 0.0 {
      assert s == 1.0;
      assert page.height as real * (1.0 - s) == 0.0 && page.width as real * (1.0 - s) == 0.0;
    }
  }

  /** With `0 <= minScale < 1` and `minAlpha <= 1`, every visible page's alpha lies
      between `minAlpha` and 1, and its scale between `minScale` and 1. */
  lemma AlphaAndScaleInRange(t: ScalePageTransformer, page: Page, position: real)
    requires 0.0 <= t.minScale < 1.0 && t.minAlpha <= 1.0 && -1.0 <= position <= 1.0
    ensures var r := TransformPage(t, page, position);
      t.minScale <= r.scaleX <= 1.0 && t.minAlpha <= r.alpha <= 1.0
  {
    var s := ScaleFactor(t, position);
    assert t.minScale <= s <= 1.0;
    FractionInUnit(s - t.minScale, 1.0 - t.minScale);
    var f := (s - t.minScale) / (1.0 - t.minScale);
    ScaleWithinUnit(f, 1.0 - t.minAlpha);
    assert TransformPage(t, page, position).alpha == t.minAlpha + f * (1.0 - t.minAlpha);
  }

  lemma DivSelf(x: real)
    requires x != 0.0
    ensures x / x == 1.0
  {
  }

  lemma FractionInUnit(a: real, b: real)
    requires 0.0 <= a <= b && b > 0.0
    ensures 0.0 <= a / b <= 1.0
  {
  }

  lemma ScaleWithinUnit(f: real, d: real)
    requires 0.0 <= f <= 1.0 && d >= 0.0
    ensures 0.0 <= f * d <= d
  {
  }
}
