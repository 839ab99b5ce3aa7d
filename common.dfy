/** Small pieces of the Kotlin standard library the views rely on. */
module KotlinStd {

  datatype Option<+T> = None | Some(value: T) {
    function GetOr(default: T): T {
      match this
      case Some(v) => v
      case None => default
    }
  }

  /** Kotlin's `coerceIn(lo, hi)`: throws IllegalArgumentException when lo > hi. */
  function CoerceIn(v: real, lo: real, hi: real): (r: Option<real>)
    ensures r.Some? <==> lo <= hi
    ensures r.Some? ==> lo <= r.value <= hi
    ensures r.Some? && lo <= v <= hi ==> r.value == v
    ensures r.Some? && v < lo ==> r.value == lo
    ensures r.Some? && hi < v ==> r.value == hi
  {
    if lo > hi then None
    else if v < lo then Some(lo)
    else if v > hi then Some(hi)
    else Some(v)
  }

  /** `coerceIn` with bounds known to be ordered (the constant clamps of the views). */
  function Clamp(v: real, lo: real, hi: real): (r: real)
    requires lo <= hi
    ensures lo <= r <= hi
    ensures lo <= v <= hi ==> r == v
    ensures Some(r) == CoerceIn(v, lo, hi)
  {
    if v < lo then lo else if v > hi then hi else v
  }

  function ClampInt(v: int, lo: int, hi: int): (r: int)
    requires lo <= hi
    ensures lo <= r <= hi
    ensures lo <= v <= hi ==> r == v
  {
    if v < lo then lo else if v > hi then hi else v
  }

  /** `coerceAtLeast(lo)`. */
  function AtLeast(v: real, lo: real): (r: real)
    ensures r >= lo && r >= v
    ensures r == lo || r == v
  {
    if v < lo then lo else v
  }

  /** `Float.toInt()`: truncation toward zero (Dafny's `Floor` rounds down). */
  function ToInt(r: real): (n: int)
    ensures r >= 0.0 ==> n as real <= r < n as real + 1.0
    ensures r < 0.0 ==> n as real - 1.0 < r <= n as real
    ensures (r >= 0.0 ==> n >= 0) && (r <= 0.0 ==> n <= 0)
  {
    if r >= 0.0 then r.Floor else -((-r).Floor)
  }

  function Abs(r: real): (a: real)
    ensures a >= 0.0 && (a == r || a == -r)
  {
    if r < 0.0 then -r else r
  }

  function MaxReal(a: real, b: real): (m: real)
    ensures m >= a && m >= b && (m == a || m == b)
  {
    if a >= b then a else b
  }

  function MinInt(a: int, b: int): (m: int)
    ensures m <= a && m <= b && (m == a || m == b)
  {
    if a <= b then a else b
  }

  function MaxInt(a: int, b: int): (m: int)
    ensures m >= a && m >= b && (m == a || m == b)
  {
    if a >= b then a else b
  }
}

/** Android graphics and layout values shared by the views. */
module Graphics {

  /** A colour written as `#AARRGGBB` in the source, held in a signed 32-bit Kotlin `Int`. */
  function Argb(u: int): (c: int)
    requires 0 <= u < 0x1_0000_0000
    ensures -0x8000_0000 <= c < 0x8000_0000
    ensures (c - u) % 0x1_0000_0000 == 0
  {
    if u >= 0x8000_0000 then u - 0x1_0000_0000 else u
  }

  const TRANSPARENT: int := 0
  const WHITE: int := -1

  /** `Paint.Cap`. */
  datatype Cap = Butt | Round | Square

  /** `android.graphics.RectF`. */
  datatype RectF = RectF(left: real, top: real, right: real, bottom: real)

  /** `android.graphics.Rect`. */
  datatype Rect = Rect(left: int, top: int, right: int, bottom: int) {
    function Width(): int { right - left }
    function Height(): int { bottom - top }
  }

  /** The mode half of a `View.MeasureSpec`. */
  datatype MeasureMode = Unspecified | Exactly | AtMost

  /** The rectangle of a `width` x `height` view shrunk by half a stroke on every side,
      so that a stroke centred on its edge stays inside the view. */
  function StrokeInsetRect(width: int, height: int, strokeWidth: real): (r: RectF)
    ensures r.left == r.top == strokeWidth / 2.0
    ensures r.right == width as real - strokeWidth / 2.0
    ensures r.bottom == height as real - strokeWidth / 2.0
    ensures r.right - r.left == width as real - strokeWidth
    ensures r.bottom - r.top == height as real - strokeWidth
  {
    var pad := strokeWidth / 2.0;
    RectF(pad, pad, width as real - pad, height as real - pad)
  }
}
