/** DashedLineView: a horizontal or vertical dashed line whose width, dash interval,
    colour and orientation go through pending shadows and `apply()`. */
module Dashed {
  import opened KotlinStd
  import opened Graphics

  const HORIZONTAL: int := 0
  const VERTICAL: int := 1

  /** `Color.parseColor("#F5EFE0")`: six hex digits are read with a full alpha. */
  const DEFAULT_LINE_COLOR: int := Argb(0xFFF5EFE0)

  datatype Orientation = Horizontal | Vertical

  /** `Orientation.fromValue`: only the VERTICAL constant maps to Vertical. */
  function FromValue(value: int): (o: Orientation)
    ensures o == Vertical <==> value == VERTICAL
    ensures o == Horizontal <==> value != VERTICAL
  {
    if value == VERTICAL then Vertical else Horizontal
  }

  /** `dp2px`: dp scaled by the density and rounded by adding half a pixel (kept as a
      fraction: the result is a Float). */
  function Dp2Px(dp: real, density: real): (px: real)
    ensures px - 0.5 == dp * density
  {
    dp * density + 0.5
  }

  /** The five parameters that have a pending shadow. */
  datatype LineParams = LineParams(
    lineWidth: real, dashWidth: real, dashGap: real, lineColor: int, orientation: Orientation)

  /** What the chain setters and the XML initialisation guarantee. */
  predicate Sanitised(p: LineParams) {
    p.lineWidth >= 0.5 && p.dashWidth >= 1.0 && p.dashGap >= 0.0
  }

  /** The interval of the `DashPathEffect` (`applyPaintSettings`): a non-positive dash
      becomes 1 and a negative gap becomes 0. */
  function DashInterval(dashWidth: real, dashGap: real): (r: (real, real))
    ensures r.0 > 0.0 && r.1 >= 0.0
    ensures r.0 == (if dashWidth <= 0.0 then 1.0 else dashWidth)
    ensures r.1 == (if dashGap < 0.0 then 0.0 else dashGap)
  {
    (if dashWidth <= 0.0 then 1.0 else dashWidth, if dashGap < 0.0 then 0.0 else dashGap)
  }

  /** The stroke the paint carries. */
  datatype PaintSettings = PaintSettings(strokeWidth: real, color: int, interval: (real, real))

  function PaintFor(p: LineParams): (paint: PaintSettings)
    ensures paint.strokeWidth == p.lineWidth && paint.color == p.lineColor
    ensures Sanitised(p) ==> paint.interval == (p.dashWidth, p.dashGap)
  {
    PaintSettings(p.lineWidth, p.lineColor, DashInterval(p.dashWidth, p.dashGap))
  }

  /** A straight segment of the path. */
  datatype Segment = Segment(x0: real, y0: real, x1: real, y1: real)

  /** `rebuildPath`: one segment across the padded extent, through the centre of the other
      axis; no segment when the padding leaves no room. */
  function PathFor(o: Orientation, width: int, height: int,
                   paddingLeft: int, paddingTop: int, paddingRight: int, paddingBottom: int): (path: Option<Segment>)
    ensures o == Horizontal ==>
      (path.Some? <==> paddingLeft < width - paddingRight)
      && (path.Some? ==> path.value == Segment(paddingLeft as real, height as real / 2.0,
                                               (width - paddingRight) as real, height as real / 2.0))
    ensures o == Vertical ==>
      (path.Some? <==> paddingTop < height - paddingBottom)
      && (path.Some? ==> path.value == Segment(width as real / 2.0, paddingTop as real,
                                               width as real / 2.0, (height - paddingBottom) as real))
    ensures path.Some? ==> path.value.x0 <= path.value.x1 && path.value.y0 <= path.value.y1
  {
    match o
    case Horizontal =>
      var startX, endX := paddingLeft as real, (width - paddingRight) as real;
      if startX < endX then Some(Segment(startX, height as real / 2.0, endX, height as real / 2.0)) else None
    case Vertical =>
      var startY, endY := paddingTop as real, (height - paddingBottom) as real;
      if startY < endY then Some(Segment(width as real / 2.0, startY, width as real / 2.0, endY)) else None
  }

  datatype State = State(live: LineParams, pending: LineParams, hasPending: bool, pathDirty: bool)

  /** What an `apply()` asks of the framework. */
  datatype Effects = Effects(requestLayout: bool, invalidate: bool)

  /** `applyPendingChanges` in closed form: the shadows are taken (dash width and gap as a
      pair), an orientation change marks the path dirty. */
  function ApplySpec(s: State): (r: State)
    ensures !s.hasPending ==> r == s
    ensures s.hasPending ==> r.live == s.pending && r.pending == s.pending && !r.hasPending
    ensures r.pathDirty <==> s.pathDirty || (s.hasPending && s.pending.orientation != s.live.orientation)
  {
    if !s.hasPending then s
    else State(s.pending, s.pending, false, s.pathDirty || s.pending.orientation != s.live.orientation)
  }

  function ApplyEffects(s: State): (e: Effects)
    ensures !s.hasPending ==> e == Effects(false, false)
    ensures s.hasPending ==>
      (e.requestLayout <==> s.pending.lineWidth != s.live.lineWidth || s.pending.orientation != s.live.orientation)
    ensures s.hasPending ==> (e.invalidate <==> s.pending != s.live)
  {
    if !s.hasPending then Effects(false, false)
    else
      var l, p := s.live, s.pending;
      Effects(p.lineWidth != l.lineWidth || p.orientation != l.orientation,
              p.lineWidth != l.lineWidth || p.dashWidth != l.dashWidth || p.dashGap != l.dashGap
              || p.lineColor != l.lineColor || p.orientation != l.orientation)
  }

  // ---------------------------------------------------------- initialisation order

  /** One step of the view's property initialisation, in declaration order: reading the
      density to convert a default dp size, or assigning the `displayMetrics` property. */
  datatype InitStep = ConvertDp(dp: real) | AssignDisplayMetrics

  /** The order the properties are declared in: three `dp2px` defaults, then the
      `displayMetrics` property the conversion reads. */
  const DECLARED_ORDER: seq<InitStep> :=
    [ConvertDp(1.0), ConvertDp(4.0), ConvertDp(2.0), AssignDisplayMetrics]

  /** The order that lets every conversion see the metrics. */
  const CORRECTED_ORDER: seq<InitStep> :=
    [AssignDisplayMetrics, ConvertDp(1.0), ConvertDp(4.0), ConvertDp(2.0)]

  /** Runs initialisation steps; a conversion before `displayMetrics` is assigned reads a
      null field and fails (`None`), otherwise the converted sizes are collected. */
  function RunInit(steps: seq<InitStep>, metrics: Option<real>, density: real): (r: Option<seq<real>>)
    ensures r.Some? ==> |r.value| <= |steps|
  {
    if steps == [] then Some([])
    else match steps[0]
      case AssignDisplayMetrics => RunInit(steps[1..], Some(density), density)
      case ConvertDp(dp) =>
        if metrics.None? then None
        else
          var rest := RunInit(steps[1..], metrics, density);
          if rest.None? then None else Some([Dp2Px(dp, metrics.value)] + rest.value)
  }

  /** As declared, constructing the view fails whatever the density. */
  lemma DeclaredOrderAlwaysFails(density: real)
    ensures RunInit(DECLARED_ORDER, None, density).None?
  {
  }

  /** With the metrics assigned first, the three defaults are the converted sizes. */
  lemma CorrectedOrderConverts(density: real)
    ensures RunInit(CORRECTED_ORDER, None, density)
            == Some([Dp2Px(1.0, density), Dp2Px(4.0, density), Dp2Px(2.0, density)])
  {
    var m := Some(density);
    var tail := [ConvertDp(2.0)];
    assert RunInit(tail, m, density) == Some([Dp2Px(2.0, density)]) by {
      assert tail[0] == ConvertDp(2.0) && tail[1..] == [];
      assert RunInit([], m, density) == Some([]);
      assert [Dp2Px(2.0, density)] + [] == [Dp2Px(2.0, density)];
    }
    var mid := [ConvertDp(4.0)] + tail;
    assert RunInit(mid, m, density) == Some([Dp2Px(4.0, density), Dp2Px(2.0, density)]) by {
      assert mid[0] == ConvertDp(4.0) && mid[1..] == tail;
      assert [Dp2Px(4.0, density)] + [Dp2Px(2.0, density)] == [Dp2Px(4.0, density), Dp2Px(2.0, density)];
    }
    var conv := [ConvertDp(1.0)] + mid;
    assert RunInit(conv, m, density) == Some([Dp2Px(1.0, density), Dp2Px(4.0, density), Dp2Px(2.0, density)]) by {
      assert conv[0] == ConvertDp(1.0) && conv[1..] == mid;
      assert [Dp2Px(1.0, density)] + [Dp2Px(4.0, density), Dp2Px(2.0, density)]
          == [Dp2Px(1.0, density), Dp2Px(4.0, density), Dp2Px(2.0, density)];
    }
    assert CORRECTED_ORDER[0] == AssignDisplayMetrics && CORRECTED_ORDER[1..] == conv;
  }

  // ---------------------------------------------------------- the view

  class DashedLineView {
    const density: real
    var live: LineParams
    var pending: LineParams
    var hasPendingChanges: bool
    var paint: PaintSettings
    var path: Option<Segment>
    var pathDirty: bool
    var width: int
    var height: int
    const paddingLeft: int
    const paddingTop: int
    const paddingRight: int
    const paddingBottom: int

    function Snapshot(): State
      reads this
    {
      State(live, pending, hasPendingChanges, pathDirty)
    }

    function CurrentPath(): Option<Segment>
      reads this
    {
      PathFor(live.orientation, width, height, paddingLeft, paddingTop, paddingRight, paddingBottom)
    }

    /** The paint always matches the live parameters, and a path that is not marked dirty
        is the one the live orientation and size call for. */
    ghost predicate Valid()
      reads this
    {
      Sanitised(live) && Sanitised(pending)
      && paint == PaintFor(live)
      && (!pathDirty ==> path == CurrentPath())
    }

    /** The view without XML attributes, with `displayMetrics` assigned before the dp
        defaults are converted (CORRECTED_ORDER); the `init` block then clamps them. The
        line colour is `DEFAULT_LINE_COLOR`, "#F5EFE0", which `parseColor` reads as opaque. */
    constructor (density: real, paddingLeft: int, paddingTop: int, paddingRight: int, paddingBottom: int)
      ensures Valid() && !hasPendingChanges && pending == live && pathDirty
      ensures live == LineParams(AtLeast(Dp2Px(1.0, density), 0.5), AtLeast(Dp2Px(4.0, density), 1.0),
                                 AtLeast(Dp2Px(2.0, density), 0.0), DEFAULT_LINE_COLOR, Horizontal)
    {
      this.density := density;
      this.paddingLeft, this.paddingTop, this.paddingRight, this.paddingBottom :=
        paddingLeft, paddingTop, paddingRight, paddingBottom;
      live := LineParams(AtLeast(Dp2Px(1.0, density), 0.5), AtLeast(Dp2Px(4.0, density), 1.0),
                         AtLeast(Dp2Px(2.0, density), 0.0), DEFAULT_LINE_COLOR, Horizontal);
      path := None;
      pathDirty := true;
      width, height := 0, 0;
      new;
      ResetPendingParams();
      ApplyPaintSettings();
    }

    /** `resetPendingParams`. */
    method ResetPendingParams()
      modifies this`pending, this`hasPendingChanges
      ensures pending == live && !hasPendingChanges
    {
      pending := live;
      hasPendingChanges := false;
    }

    /** `applyPaintSettings`. */
    method ApplyPaintSettings()
      modifies this`paint
      ensures paint == PaintFor(live)
    {
      var effectiveDashWidth := if live.dashWidth <= 0.0 then 1.0 else live.dashWidth;
      var effectiveDashGap := if live.dashGap < 0.0 then 0.0 else live.dashGap;
      paint := PaintSettings(live.lineWidth, live.lineColor, (effectiveDashWidth, effectiveDashGap));
    }

    /** `apply()` / `applyPendingChanges`: returns whether a layout pass and a redraw were
        requested. */
    method Apply() returns (effects: Effects)
      requires Valid()
      modifies this`live, this`pending, this`hasPendingChanges, this`paint, this`pathDirty
      ensures Valid()
      ensures Snapshot() == ApplySpec(old(Snapshot()))
      ensures effects == ApplyEffects(old(Snapshot()))
    {
      if !hasPendingChanges {
        return Effects(false, false);
      }
      var needLayout, needInvalidate := false, false;
      if pending.lineWidth != live.lineWidth {
        live := live.(lineWidth := pending.lineWidth);
        needLayout, needInvalidate := true, true;
      }
      if pending.dashWidth != live.dashWidth || pending.dashGap != live.dashGap {
        live := live.(dashWidth := pending.dashWidth, dashGap := pending.dashGap);
        needInvalidate := true;
      }
      if pending.lineColor != live.lineColor {
        live := live.(lineColor := pending.lineColor);
        needInvalidate := true;
      }
      if pending.orientation != live.orientation {
        live := live.(orientation := pending.orientation);
        pathDirty := true;
        needLayout, needInvalidate := true, true;
      }
      if needInvalidate {
        ApplyPaintSettings();
      }
      effects := Effects(needLayout, needInvalidate);
      ResetPendingParams();
    }

    /** `setLineWidthDp`: at least half a pixel. */
    method SetLineWidthDp(widthDp: real)
      modifies this`pending, this`hasPendingChanges
      ensures pending == old(pending).(lineWidth := AtLeast(Dp2Px(widthDp, density), 0.5)) && hasPendingChanges
      ensures old(Valid()) ==> Valid()
    {
      pending := pending.(lineWidth := AtLeast(Dp2Px(widthDp, density), 0.5));
      hasPendingChanges := true;
    }

    /** `setDashParamsDp`: a dash of at least one pixel and a non-negative gap. */
    method SetDashParamsDp(dashWidthDp: real, dashGapDp: real)
      modifies this`pending, this`hasPendingChanges
      ensures pending == old(pending).(dashWidth := AtLeast(Dp2Px(dashWidthDp, density), 1.0),
                                       dashGap := AtLeast(Dp2Px(dashGapDp, density), 0.0))
      ensures hasPendingChanges
      ensures old(Valid()) ==> Valid()
    {
      pending := pending.(dashWidth := AtLeast(Dp2Px(dashWidthDp, density), 1.0),
                          dashGap := AtLeast(Dp2Px(dashGapDp, density), 0.0));
      hasPendingChanges := true;
    }

    method SetLineColor(color: int)
      modifies this`pending, this`hasPendingChanges
      ensures pending == old(pending).(lineColor := color) && hasPendingChanges
      ensures old(Valid()) ==> Valid()
    {
      pending := pending.(lineColor := color);
      hasPendingChanges := true;
    }

    /** `setOrientation(Orientation)`. */
    method SetOrientation(orientation: Orientation)
      modifies this`pending, this`hasPendingChanges
      ensures pending == old(pending).(orientation := orientation) && hasPendingChanges
      ensures old(Valid()) ==> Valid()
    {
      pending := pending.(orientation := orientation);
      hasPendingChanges := true;
    }

    /** `setOrientation(Int)`: through `fromValue`. */
    method SetOrientationValue(value: int)
      modifies this`pending, this`hasPendingChanges
      ensures pending == old(pending).(orientation := FromValue(value)) && hasPendingChanges
      ensures old(Valid()) ==> Valid()
    {
      SetOrientation(FromValue(value));
    }

    /** `setLineWidth`: the chain setter followed by `apply()`. */
    method SetLineWidth(widthDp: real)
      requires Valid()
      modifies this`live, this`pending, this`hasPendingChanges, this`paint, this`pathDirty
      ensures Valid()
      ensures Snapshot() == ApplySpec(old(Snapshot()).(
        pending := old(pending).(lineWidth := AtLeast(Dp2Px(widthDp, density), 0.5)), hasPending := true))
    {
      SetLineWidthDp(widthDp);
      var _ := Apply();
    }

    /** `setDashParams`: the chain setter followed by `apply()`. */
    method SetDashParams(dashWidthDp: real, dashGapDp: real)
      requires Valid()
      modifies this`live, this`pending, this`hasPendingChanges, this`paint, this`pathDirty
      ensures Valid()
      ensures Snapshot() == ApplySpec(old(Snapshot()).(
        pending := old(pending).(dashWidth := AtLeast(Dp2Px(dashWidthDp, density), 1.0),
                                 dashGap := AtLeast(Dp2Px(dashGapDp, density), 0.0)),
        hasPending := true))
    {
      SetDashParamsDp(dashWidthDp, dashGapDp);
      var _ := Apply();
    }

    /** `onSizeChanged`: the path has to be rebuilt. */
    method OnSizeChanged(w: int, h: int)
      requires Valid()
      modifies this`width, this`height, this`pathDirty
      ensures Valid() && width == w && height == h && pathDirty
    {
      width, height := w, h;
      pathDirty := true;
    }

    /** `onDraw`: rebuilds a dirty path; the path drawn is then the one the live state
        calls for. */
    method OnDraw() returns (drawn: Option<Segment>)
      requires Valid()
      modifies this`path, this`pathDirty
      ensures Valid() && !pathDirty
      ensures drawn == path == CurrentPath()
    {
      if pathDirty {
        RebuildPath();
        pathDirty := false;
      }
      drawn := path;
    }

    /** `rebuildPath`. */
    method RebuildPath()
      modifies this`path
      ensures path == CurrentPath()
    {
      var centerY := height as real / 2.0;
      var centerX := width as real / 2.0;
      path := None;
      if live.orientation == Horizontal {
        var startX := paddingLeft as real;
        var endX := (width - paddingRight) as real;
        if startX < endX {
          path := Some(Segment(startX, centerY, endX, centerY));
        }
      } else {
        var startY := paddingTop as real;
        var endY := (height - paddingBottom) as real;
        if startY < endY {
          path := Some(Segment(centerX, startY, centerX, endY));
        }
      }
    }
  }

  // ---------------------------------------------------------- lemmas

  /** A second `apply()` right after the first changes nothing and requests nothing. */
  lemma ApplyIdempotent(s: State)
    ensures ApplySpec(ApplySpec(s)) == ApplySpec(s)
    ensures ApplyEffects(ApplySpec(s)) == Effects(false, false)
  {
  }

  /** A batch that only changes the dash interval or the colour redraws without a layout
      pass and without touching the path. */
  lemma DashOrColorOnlyRedraws(s: State)
    requires s.hasPending && s.pending != s.live
    requires s.pending.lineWidth == s.live.lineWidth && s.pending.orientation == s.live.orientation
    ensures ApplyEffects(s) == Effects(false, true)
    ensures ApplySpec(s).pathDirty == s.pathDirty
  {
  }

  /** An orientation change both requests a layout pass and forces the path to be rebuilt. */
  lemma OrientationChangeRebuildsPath(s: State)
    requires s.hasPending && s.pending.orientation != s.live.orientation
    ensures ApplyEffects(s) == Effects(true, true) && ApplySpec(s).pathDirty
  {
  }

  /** The dash interval of a sanitised line is used as it is. */
  lemma SanitisedIntervalIsUnchanged(p: LineParams)
    requires Sanitised(p)
    ensures DashInterval(p.dashWidth, p.dashGap) == (p.dashWidth, p.dashGap)
  {
  }
}
