/** DefaultIndicator: the viewer's page indicator, a text label "n / total" shown only
    when there is more than one image. */
module Indicator {
  import opened KotlinStd
  import opened Graphics
  import opened Viewer

  // ------------------------------------------------------------ decimal text

  function DigitChar(d: nat): (c: char)
    requires d < 10
    ensures '0' <= c <= '9' && (c as int) - ('0' as int) == d
  {
    ('0' as int + d) as char
  }

  /** The decimal digits of `n`, most significant first, without leading zeros. */
  function NatToString(n: nat): (s: string)
    ensures |s| >= 1
    ensures forall i :: 0 <= i < |s| ==> '0' <= s[i] <= '9'
    decreases n
  {
    if n < 10 then [DigitChar(n)] else NatToString(n / 10) + [DigitChar(n % 10)]
  }

  /** Kotlin's string template for an `Int`: a minus sign, then the digits. */
  function IntToString(n: int): (s: string)
    ensures |s| >= 1
    ensures forall i :: 0 <= i < |s| ==> s[i] == '-' || '0' <= s[i] <= '9'
    ensures (n < 0) <==> s[0] == '-'
  {
    if n < 0 then "-" + NatToString(-n) else NatToString(n)
  }

  /** Reading decimal digits back (the inverse of `NatToString`). */
  function ParseNat(s: string): nat
    decreases |s|
  {
    if |s| == 0 then 0
    else
      var d := (s[|s| - 1] as int) - ('0' as int);
      ParseNat(s[..|s| - 1]) * 10 + (if 0 <= d < 10 then d else 0)
  }

  function ParseInt(s: string): int {
    if |s| > 0 && s[0] == '-' then 0 - ParseNat(s[1..]) else ParseNat(s)
  }

  lemma {:induction false} ParseNatToString(n: nat)
    ensures ParseNat(NatToString(n)) == n
    decreases n
  {
    var s := NatToString(n);
    if n >= 10 {
      ParseNatToString(n / 10);
      assert s[..|s| - 1] == NatToString(n / 10);
    }
  }

  /** Every Int prints to a string it can be read back from. */
  lemma ParseIntToString(n: int)
    ensures ParseInt(IntToString(n)) == n
  {
    if n < 0 {
      ParseNatToString(-n);
      assert IntToString(n)[1..] == NatToString(-n);
    } else {
      ParseNatToString(n);
    }
  }

  // ------------------------------------------------------------ the label

  /** `"${position + 1} / $total"`. */
  function PageLabel(position: int, total: int): string {
    IntToString(position + 1) + " / " + IntToString(total)
  }

  /** Strings of digits and minus signs have no space in them. */
  predicate NoSpace(s: string) {
    forall i :: 0 <= i < |s| ==> s[i] != ' '
  }

  /** Splitting `a + " / " + b` at its first space gives back `a` and `b`. */
  lemma SplitAtSeparator(a1: string, b1: string, a2: string, b2: string)
    requires NoSpace(a1) && NoSpace(a2)
    requires a1 + " / " + b1 == a2 + " / " + b2
    ensures a1 == a2 && b1 == b2
  {
    var s := a1 + " / " + b1;
    assert s[|a1|] == ' ' && s[|a2|] == ' ';
    assert forall k :: 0 <= k < |a1| ==> s[k] == a1[k] != ' ';
    assert forall k :: 0 <= k < |a2| ==> s[k] == a2[k] != ' ';
    assert |a1| == |a2|;
    assert a1 == s[..|a1|] == a2;
    assert b1 == s[|a1| + 3..] == b2;
  }

  /** The label determines the page and the total: different (position, total) pairs
      never show the same text. */
  lemma PageLabelDeterminesPage(p1: int, t1: int, p2: int, t2: int)
    requires PageLabel(p1, t1) == PageLabel(p2, t2)
    ensures p1 == p2 && t1 == t2
  {
    SplitAtSeparator(IntToString(p1 + 1), IntToString(t1), IntToString(p2 + 1), IntToString(t2));
    ParseIntToString(p1 + 1);
    ParseIntToString(p2 + 1);
    ParseIntToString(t1);
    ParseIntToString(t2);
  }

  // ------------------------------------------------------------ the views

  datatype Visibility = Visible | Gone

  /** The TextView the indicator creates and later updates. */
  class TextView {
    var text: string
    var visibility: Visibility
    const textColor: int
    const textSizeSp: real
    const backgroundColor: int
    const padding: (int, int, int, int)
    const bottomMargin: int

    constructor (textColor: int, textSizeSp: real, backgroundColor: int,
                 padding: (int, int, int, int), bottomMargin: int)
      ensures text == "" && visibility == Visible
      ensures this.textColor == textColor && this.textSizeSp == textSizeSp
      ensures this.backgroundColor == backgroundColor
      ensures this.padding == padding && this.bottomMargin == bottomMargin
    {
      text := "";
      visibility := Visible;
      this.textColor := textColor;
      this.textSizeSp := textSizeSp;
      this.backgroundColor := backgroundColor;
      this.padding := padding;
      this.bottomMargin := bottomMargin;
    }
  }

  /** What `createView` returns: the text label, or a plain view that is gone. */
  datatype IndicatorView = Label(textView: TextView) | Blank(visibility: Visibility)

  /** `TypedValue.applyDimension(COMPLEX_UNIT_DIP, dp, metrics).toInt()`. */
  function Dp2Px(dp: int, density: real): (px: int)
    ensures density >= 0.0 && dp >= 0 ==> px >= 0
  {
    ToInt(dp as real * density)
  }

  /** `DefaultIndicator(style)`. */
  class DefaultIndicator {
    const style: IndicatorStyle
    var textView: TextView?
    var total: int

    constructor (style: IndicatorStyle)
      ensures this.style == style && textView == null && total == 0
    {
      this.style := style;
      textView := null;
      total := 0;
    }

    /** `createTextIndicator`: a white 14sp label on translucent black, padded 16/8 dp and
        kept 32 dp above the bottom; the indicator remembers it. */
    method CreateTextIndicator(density: real) returns (v: IndicatorView)
      modifies this`textView
      ensures v.Label? && fresh(v.textView) && textView == v.textView
      ensures v.textView.text == "" && v.textView.visibility == Visible
      ensures v.textView.textColor == WHITE && v.textView.textSizeSp == 14.0
      ensures v.textView.backgroundColor == 0x6600_0000
      ensures v.textView.padding == (Dp2Px(16, density), Dp2Px(8, density), Dp2Px(16, density), Dp2Px(8, density))
      ensures v.textView.bottomMargin == Dp2Px(32, density)
    {
      var tv := new TextView(WHITE, 14.0, 0x6600_0000,
                             (Dp2Px(16, density), Dp2Px(8, density), Dp2Px(16, density), Dp2Px(8, density)),
                             Dp2Px(32, density));
      textView := tv;
      v := Label(tv);
    }

    /** `createView`: NONE gives a plain view that is gone and leaves the indicator as it
        was; TEXT and DOT both give the text label. */
    method CreateView(density: real) returns (v: IndicatorView)
      modifies this`textView
      ensures style == NONE ==> v == Blank(Gone) && textView == old(textView)
      ensures style != NONE ==>
        v.Label? && fresh(v.textView) && textView == v.textView
        && v.textView.text == "" && v.textView.visibility == Visible
        && v.textView.textColor == WHITE && v.textView.backgroundColor == 0x6600_0000
    {
      match style
      case TEXT => v := CreateTextIndicator(density);
      case DOT => v := CreateTextIndicator(density);
      case NONE => v := Blank(Gone);
    }

    /** `onPageSelected(position, total)`: records the total and, when a label exists,
        shows "(position + 1) / total" on it, visible only for more than one page. */
    method OnPageSelected(position: int, total: int)
      modifies this`total, textView
      ensures this.total == total && textView == old(textView)
      ensures textView != null ==>
        textView.text == PageLabel(position, total)
        && (textView.visibility == Visible <==> total > 1)
    {
      this.total := total;
      if textView != null {
        textView.text := IntToString(position + 1) + " / " + IntToString(total);
        textView.visibility := if total > 1 then Visible else Gone;
      }
    }

    /** `setTotal(total)`: records the total only. */
    method SetTotal(total: int)
      modifies this`total
      ensures this.total == total
    {
      this.total := total;
    }
  }

  /** DOT and TEXT indicators behave identically: after creating their views and
      selecting the same page, both labels read the same. */
  method DotMatchesText(density: real, position: int, total: int) returns (dotText: string, textText: string)
    ensures dotText == textText == PageLabel(position, total)
  {
    var dot := new DefaultIndicator(DOT);
    var text := new DefaultIndicator(TEXT);
    var dv := dot.CreateView(density);
    var tv := text.CreateView(density);
    dot.OnPageSelected(position, total);
    text.OnPageSelected(position, total);
    dotText := dv.textView.text;
    textText := tv.textView.text;
  }

  /** Before `createView`, or with style NONE, selecting a page only records the total. */
  method NoneIndicatorHasNoLabel(density: real, position: int, total: int) returns (hasLabel: bool, recorded: int)
    ensures !hasLabel && recorded == total
  {
    var none := new DefaultIndicator(NONE);
    var v := none.CreateView(density);
    none.OnPageSelected(position, total);
    hasLabel := none.textView != null;
    recorded := none.total;
  }
}
