/** MatchParentImagePlugin: images in Markwon text are stretched to the width of the text
    view, keeping their aspect ratio. */
module MatchParentImage {
  import opened KotlinStd
  import opened Graphics

  /** `MatchParentImageSizeResolver.resolveImageSize`: with a positive canvas width and a
      non-empty image, a rect at the origin as wide as the canvas and scaled in height
      (truncated); otherwise the image bounds unchanged. */
  function ResolveImageSize(imageBounds: Rect, canvasWidth: int): (r: Rect)
    ensures !(canvasWidth > 0 && imageBounds.Width() > 0 && imageBounds.Height() > 0) ==> r == imageBounds
    ensures canvasWidth > 0 && imageBounds.Width() > 0 && imageBounds.Height() > 0 ==>
      r.left == 0 && r.top == 0 && r.right == canvasWidth
      && r.bottom >= 0
      && r.bottom * imageBounds.Width() <= imageBounds.Height() * canvasWidth
      && imageBounds.Height() * canvasWidth < (r.bottom + 1) * imageBounds.Width()
  {
    if canvasWidth > 0 && imageBounds.Width() > 0 && imageBounds.Height() > 0 then
      var w, h := imageBounds.Width(), imageBounds.Height();
      var ratio := canvasWidth as real / w as real;
      var newHeight := ToInt(h as real * ratio);
      ScaledHeightBounds(h, w, canvasWidth, newHeight);
      Rect(0, 0, canvasWidth, newHeight)
    else imageBounds
  }

  /** The truncated height `n` of `h * (c / w)` satisfies `n * w <= h * c < (n + 1) * w`. */
  lemma ScaledHeightBounds(h: int, w: int, c: int, n: int)
    requires h > 0 && w > 0 && c > 0
    requires n == ToInt(h as real * (c as real / w as real))
    ensures n >= 0
    ensures n * w <= h * c < (n + 1) * w
  {
    var wr, hr, cr := w as real, h as real, c as real;
    NonNegScaled(hr, cr, wr);
    assert n as real <= hr * (cr / wr) < n as real + 1.0;
    RealBounds(n as real, hr, cr, wr);
    IntBounds(n, h, c, w);
  }

  /** Multiplying `n <= h * (c / w) < n + 1` through by `w`. */
  lemma RealBounds(n: real, h: real, c: real, w: real)
    requires w > 0.0 && n <= h * (c / w) < n + 1.0
    ensures n * w <= h * c < (n + 1.0) * w
  {
    Scale(n, h * (c / w), n + 1.0, w);
    ScaledTimesWidth(h, w, c);
  }

  /** The same bounds, read back in integers. */
  lemma IntBounds(n: int, h: int, c: int, w: int)
    requires n as real * w as real <= h as real * c as real < (n as real + 1.0) * w as real
    ensures n * w <= h * c < (n + 1) * w
  {
    CastMul(n, w);
    CastMul(h, c);
    CastMul(n + 1, w);
    CastOrder(n * w, h * c, (n + 1) * w, n as real * w as real, h as real * c as real, (n as real + 1.0) * w as real);
  }

  lemma NonNegScaled(h: real, c: real, w: real)
    requires h >= 0.0 && c >= 0.0 && w > 0.0
    ensures h * (c / w) >= 0.0
  {
    assert c / w >= 0.0;
  }

  lemma Scale(a: real, x: real, b: real, w: real)
    requires a <= x < b && w > 0.0
    ensures a * w <= x * w < b * w
  {
    RealMulLe(a, x, w);
    RealMulLt(x, b, w);
  }

  lemma CastOrder(a: int, b: int, c: int, ar: real, br: real, cr: real)
    requires a as real == ar && b as real == br && c as real == cr
    requires ar <= br < cr
    ensures a <= b < c
  {
  }

  lemma ScaledTimesWidth(h: real, w: real, c: real)
    requires w > 0.0
    ensures h * (c / w) * w == h * c
  {
    assert c / w * w == c;
  }

  lemma CastMul(a: int, b: int)
    ensures (a * b) as real == a as real * b as real
  {
  }

  lemma RealMulLe(a: real, b: real, w: real)
    requires a <= b && w > 0.0
    ensures a * w <= b * w
  {
  }

  lemma RealMulLt(a: real, b: real, w: real)
    requires a < b && w > 0.0
    ensures a * w < b * w
  {
  }

  /** Cancelling a positive factor. */
  lemma CancelLe(a: int, b: int, w: int)
    requires w > 0 && a * w <= b * w
    ensures a <= b
  {
    assert (b - a) * w == b * w - a * w;
  }

  lemma CancelLt(a: int, b: int, w: int)
    requires w > 0 && a * w < b * w
    ensures a < b
  {
    assert (b - a) * w == b * w - a * w;
  }

  /** A canvas exactly as wide as the image leaves its size unchanged (moved to the
      origin). */
  lemma SameWidthKeepsHeight(imageBounds: Rect)
    requires imageBounds.Width() > 0 && imageBounds.Height() > 0
    ensures ResolveImageSize(imageBounds, imageBounds.Width())
            == Rect(0, 0, imageBounds.Width(), imageBounds.Height())
  {
    var w, h := imageBounds.Width(), imageBounds.Height();
    var n := ResolveImageSize(imageBounds, w).bottom;
    CancelLe(n, h, w);
    CancelLt(h, n + 1, w);
  }

  /** A wider canvas never gives a shorter image. */
  lemma WiderCanvasIsTaller(imageBounds: Rect, c1: int, c2: int)
    requires imageBounds.Width() > 0 && imageBounds.Height() > 0 && 0 < c1 <= c2
    ensures ResolveImageSize(imageBounds, c1).bottom <= ResolveImageSize(imageBounds, c2).bottom
  {
    var w, h := imageBounds.Width(), imageBounds.Height();
    var n1, n2 := ResolveImageSize(imageBounds, c1).bottom, ResolveImageSize(imageBounds, c2).bottom;
    MulLeftLe(h, c1, c2);
    assert n1 * w < (n2 + 1) * w;
    CancelLt(n1, n2 + 1, w);
  }

  lemma MulLeftLe(h: int, a: int, b: int)
    requires h >= 0 && a <= b
    ensures h * a <= h * b
  {
    assert h * b - h * a == h * (b - a);
  }
}
