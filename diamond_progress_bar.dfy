/** DiamondProgressBar: a bar whose live parameters are shadowed by pending
    copies; the chained `set*Pending` calls write the shadows and `apply()`
    commits every shadow that differs, in a fixed order, through the property
    setters, then re-synchronises the shadows.

    The thirty parameters are grouped as `applyPendingChanges` groups them. */
module Diamond {
  import opened KotlinStd
  import opened Graphics

  datatype ArcType = Quadratic | Cubic | CircularArc

  /** A drawable, identified by `id` (the source compares drawables by reference). */
  datatype Drawable = Drawable(id: nat, intrinsicWidth: int, intrinsicHeight: int)

  datatype Basic = Basic(progress: real, maxProgress: real, barHeight: real)

  datatype Arc = Arc(isArcMode: bool, arcHeight: real, arcControlPosition: real, arcType: ArcType,
                     arcControlHeight1: real, arcControlHeight2: real)

  datatype Shape = Shape(strokeCap: Cap, barCornerRadius: real,
                         topLeftRadius: real, topRightRadius: real,
                         bottomLeftRadius: real, bottomRightRadius: real,
                         progressStartRadius: real, progressEndRadius: real, isCapsuleShape: bool)

  /** Gradient colours and optional stop positions, compared by content. */
  datatype Colors = Colors(trackColor: int, gradientColors: seq<int>, gradientPositions: Option<seq<real>>)

  datatype Icon = Icon(diamondDrawable: Option<Drawable>, diamondWidth: real, diamondHeight: real,
                       diamondOffsetY: real, diamondRotateWithPath: bool)

  datatype TiltConfig = TiltConfig(enabled: bool, angle: real, smooth: bool, duration: int)

  /** Every parameter that has a pending shadow. */
  datatype Params = Params(basic: Basic, arc: Arc, shape: Shape, colors: Colors, icon: Icon, tiltConfig: TiltConfig)

  /** The clamps the setters apply: control position in [0.1, 0.9], diamond size
      non-negative, tilt angle in [-90, 90] degrees, tilt duration in [0, 1000] ms. */
  predicate Clamped(p: Params) {
    0.1 <= p.arc.arcControlPosition <= 0.9 && p.icon.diamondWidth >= 0.0 && p.icon.diamondHeight >= 0.0
    && -90.0 <= p.tiltConfig.angle <= 90.0 && 0 <= p.tiltConfig.duration <= 1000
  }

  /** A tilt animation that was started: from `from` to `to` over `duration` ms. */
  datatype TiltAnimation = TiltAnimation(from: real, to: real, duration: int)

  /** The internal tilt state; `animation` is the animator that is running, if any. */
  datatype Tilt = Tilt(current: real, target: real, animation: Option<TiltAnimation>)

  /** The whole view state as a value. */
  datatype State = State(live: Params, pending: Params, hasPending: bool, tilt: Tilt)

  datatype ApplyOutcome = Threw | Applied(state: State)

  // ---------------------------------------------------------------- tilt rule

  /** Target of `updateTiltAngle`: +angle when progress grew, -angle when it shrank. */
  function TiltTarget(delta: real, tiltAngle: real, current: real): (t: real)
    ensures -90.0 <= tiltAngle <= 90.0 && -90.0 <= current <= 90.0 ==> -90.0 <= t <= 90.0
  {
    if delta > 0.0 then tiltAngle
    else if delta < 0.0 then -tiltAngle
    else current
  }

  /** `updateTiltAngle`: animate toward the target when smoothing is on with a positive
      duration, otherwise jump to it. */
  function UpdateTilt(t: Tilt, delta: real, c: TiltConfig): Tilt {
    var target := TiltTarget(delta, c.angle, t.current);
    if c.smooth && c.duration > 0 then Tilt(t.current, target, Some(TiltAnimation(t.current, target, c.duration)))
    else t.(current := target, target := target)
  }

  /** `setTiltAngle(angle, animate)`: the target is clamped to [-90, 90]. */
  function ManualTilt(t: Tilt, angle: real, animate: bool, duration: int): (r: Tilt)
    ensures -90.0 <= r.target <= 90.0
    ensures -90.0 <= angle <= 90.0 ==> r.target == angle
    ensures !(animate && duration > 0) ==> r.current == r.target && r.animation == t.animation
    ensures animate && duration > 0 ==> r.current == t.current && r.animation == Some(TiltAnimation(t.current, r.target, duration))
  {
    var target := Clamp(angle, -90.0, 90.0);
    if animate && duration > 0 then Tilt(t.current, target, Some(TiltAnimation(t.current, target, duration)))
    else t.(current := target, target := target)
  }

  // ------------------------------------------------------- progress setter

  /** The `progress` property setter: clamps to [0, maxProgress] (throwing when maxProgress
      is negative) and, when tilt is enabled and the value moved, updates the tilt. */
  function SetProgressSpec(live: Params, tilt: Tilt, value: real): (r: Option<(real, Tilt)>)
    ensures r.Some? <==> live.basic.maxProgress >= 0.0
    ensures r.Some? ==> 0.0 <= r.value.0 <= live.basic.maxProgress
    ensures r.Some? && 0.0 <= value <= live.basic.maxProgress ==> r.value.0 == value
    ensures r.Some? && (!live.tiltConfig.enabled || r.value.0 == live.basic.progress) ==> r.value.1 == tilt
  {
    match CoerceIn(value, 0.0, live.basic.maxProgress)
    case None => None
    case Some(v) =>
      Some((v, if live.tiltConfig.enabled && v != live.basic.progress
               then UpdateTilt(tilt, v - live.basic.progress, live.tiltConfig)
               else tilt))
  }

  /** `applyPendingChanges` in closed form, for a state whose clamps hold. */
  function ApplySpec(s: State): ApplyOutcome
    requires Clamped(s.live) && Clamped(s.pending)
  {
    if !s.hasPending then Applied(s)
    else
      var committed :=
        if s.pending.basic.progress == s.live.basic.progress then Some((s.live.basic.progress, s.tilt))
        else match CoerceIn(s.pending.basic.progress, 0.0, s.pending.basic.maxProgress)
             case None => None
             case Some(v) => SetProgressSpec(s.live, s.tilt, v);
      if committed.None? then Threw
      else
        var (p, t) := committed.value;
        var live := s.pending.(basic := s.pending.basic.(progress := p));
        var tilt := if s.live.tiltConfig.enabled && !s.pending.tiltConfig.enabled
                    then t.(current := 0.0, animation := None) else t;
        Applied(State(live, live, false, tilt))
  }

  // ----------------------------------------------------------- size rules

  /** `getActualDiamondWidth`/`getActualDiamondHeight` for one dimension: the explicit size
      when positive, else the drawable's intrinsic size when positive, else 32dp. */
  function ActualDiamondSize(explicit: real, intrinsic: Option<int>, density: real): (r: real)
    ensures explicit > 0.0 ==> r == explicit
    ensures explicit <= 0.0 && intrinsic.Some? && intrinsic.value > 0 ==> r == intrinsic.value as real
    ensures explicit <= 0.0 && (intrinsic.None? || intrinsic.value <= 0) ==> r == 32.0 * density
    ensures density > 0.0 ==> r > 0.0
  {
    if explicit > 0.0 then explicit
    else match intrinsic
      case Some(w) => if w > 0 then w as real else 32.0 * density
      case None => 32.0 * density
  }

  function IntrinsicWidth(d: Option<Drawable>): Option<int> {
    match d case Some(x) => Some(x.intrinsicWidth) case None => None
  }

  function IntrinsicHeight(d: Option<Drawable>): Option<int> {
    match d case Some(x) => Some(x.intrinsicHeight) case None => None
  }

  /** The measured size of `onMeasure`. */
  datatype Measured = Measured(width: int, height: int)

  /** The height `onMeasure` asks for: the diamond height, plus |arcHeight| in arc mode,
      plus vertical padding, truncated to an `Int`. */
  function DesiredHeight(p: Params, density: real, paddingTop: int, paddingBottom: int): int {
    var arcExtra := if p.arc.isArcMode then Abs(p.arc.arcHeight) else 0.0;
    var vSpace := ActualDiamondSize(p.icon.diamondHeight, IntrinsicHeight(p.icon.diamondDrawable), density);
    ToInt(vSpace + arcExtra + paddingTop as real + paddingBottom as real)
  }

  /** `onMeasure`: the width is the offered size (exactly or at most) or 200dp; the height
      is the exact size, the smaller of desired and offered, or the desired height. */
  function Measure(p: Params, density: real, paddingTop: int, paddingBottom: int,
                   widthMode: MeasureMode, widthSize: int, heightMode: MeasureMode, heightSize: int): (m: Measured)
    ensures widthMode != Unspecified ==> m.width == widthSize
    ensures widthMode == Unspecified ==> m.width == ToInt(200.0 * density)
    ensures heightMode == Exactly ==> m.height == heightSize
    ensures heightMode == AtMost ==> m.height <= heightSize && m.height <= DesiredHeight(p, density, paddingTop, paddingBottom)
    ensures heightMode == AtMost ==> m.height == heightSize || m.height == DesiredHeight(p, density, paddingTop, paddingBottom)
    ensures heightMode == Unspecified ==> m.height == DesiredHeight(p, density, paddingTop, paddingBottom)
  {
    var desired := DesiredHeight(p, density, paddingTop, paddingBottom);
    var w := match widthMode
      case Exactly => widthSize
      case AtMost => widthSize
      case Unspecified => ToInt(200.0 * density);
    var h := match heightMode
      case Exactly => heightSize
      case AtMost => MinInt(desired, heightSize)
      case Unspecified => desired;
    Measured(w, h)
  }

  lemma ToIntMonotone(a: real, b: real)
    requires 0.0 <= a <= b
    ensures 0 <= ToInt(a) <= ToInt(b)
  {
  }

  /** Arc mode never lowers the wanted height, whichever way the arc bends. */
  lemma ArcModeAddsArcHeight(p: Params, density: real, paddingTop: int, paddingBottom: int)
    requires density > 0.0 && paddingTop >= 0 && paddingBottom >= 0
    ensures var flat := p.(arc := p.arc.(isArcMode := false));
            var bent := p.(arc := p.arc.(isArcMode := true));
            0 <= DesiredHeight(flat, density, paddingTop, paddingBottom) <= DesiredHeight(bent, density, paddingTop, paddingBottom)
  {
    var v := ActualDiamondSize(p.icon.diamondHeight, IntrinsicHeight(p.icon.diamondDrawable), density);
    var base := v + paddingTop as real + paddingBottom as real;
    ToIntMonotone(base, base + Abs(p.arc.arcHeight));
  }

  // ------------------------------------------------------------ the view

  class DiamondProgressBar {
    const density: real
    /** The live parameters, one record field per Kotlin property. */
    var live: Params
    /** The `pending*` shadows written by the chain setters. */
    var pending: Params
    var hasPendingChanges: bool
    /** `currentTiltAngle`, `targetTiltAngle` and the running tilt animator. */
    var tilt: Tilt

    function Snapshot(): State
      reads this
    {
      State(live, pending, hasPendingChanges, tilt)
    }

    ghost predicate Valid()
      reads this
    {
      Clamped(live) && Clamped(pending)
    }

    /** The view as constructed without XML attributes; `initPendingParams` copies every
        live value into its shadow. */
    constructor (density: real)
      ensures this.density == density
      ensures Valid() && !hasPendingChanges && pending == live
      ensures live.basic == Basic(0.0, 100.0, 8.0 * density)
      ensures live.arc == Arc(false, 30.0 * density, 0.5, Quadratic, 1.0, 1.0)
      ensures live.shape == Shape(Round, 4.0 * density, 4.0 * density, 4.0 * density, 4.0 * density,
                                  4.0 * density, 4.0 * density, 4.0 * density, false)
      ensures live.colors == Colors(Argb(0xFFE0E0E0), [Argb(0xFFFF6B6B), Argb(0xFFFFE66D), Argb(0xFF4ECDC4)], None)
      ensures live.icon == Icon(None, 0.0, 0.0, 0.0, false)
      ensures live.tiltConfig == TiltConfig(false, 15.0, true, 150)
      ensures tilt == Tilt(0.0, 0.0, None)
    {
      this.density := density;
      var r := 4.0 * density;
      live := Params(Basic(0.0, 100.0, 8.0 * density),
                     Arc(false, 30.0 * density, 0.5, Quadratic, 1.0, 1.0),
                     Shape(Round, r, r, r, r, r, r, r, false),
                     Colors(Argb(0xFFE0E0E0), [Argb(0xFFFF6B6B), Argb(0xFFFFE66D), Argb(0xFF4ECDC4)], None),
                     Icon(None, 0.0, 0.0, 0.0, false),
                     TiltConfig(false, 15.0, true, 150));
      hasPendingChanges := false;
      tilt := Tilt(0.0, 0.0, None);
      new;
      InitPendingParams();
    }

    /** `initPendingParams`: every shadow takes its live value. */
    method InitPendingParams()
      modifies this`pending
      ensures pending == live
    {
      pending := live;
    }

    /** `resetPendingParams`: clear the flag, then re-synchronise the shadows. */
    method ResetPendingParams()
      modifies this`pending, this`hasPendingChanges
      ensures pending == live && !hasPendingChanges
    {
      hasPendingChanges := false;
      InitPendingParams();
    }

    // ------------------------------------------------ tilt

    /** `updateTiltAngle`. */
    method UpdateTiltAngle(delta: real)
      modifies this`tilt
      ensures tilt == UpdateTilt(old(tilt), delta, live.tiltConfig)
    {
      var c := live.tiltConfig;
      var target := if delta > 0.0 then c.angle
                    else if delta < 0.0 then -c.angle
                    else tilt.current;
      if c.smooth && c.duration > 0 {
        // animateTiltTo: cancel the running animator and start a new one
        tilt := Tilt(tilt.current, target, Some(TiltAnimation(tilt.current, target, c.duration)));
      } else {
        tilt := tilt.(current := target, target := target);
      }
    }

    /** `setTiltAngle(angle, animate)`. */
    method SetTiltAngle(angle: real, animate: bool)
      modifies this`tilt
      ensures tilt == ManualTilt(old(tilt), angle, animate, live.tiltConfig.duration)
    {
      var target := Clamp(angle, -90.0, 90.0);
      if animate && live.tiltConfig.duration > 0 {
        tilt := Tilt(tilt.current, target, Some(TiltAnimation(tilt.current, target, live.tiltConfig.duration)));
      } else {
        tilt := tilt.(current := target, target := target);
      }
    }

    /** `resetTilt(animate)`: back to upright, at once or through an animation from the
        current angle. */
    method ResetTilt(animate: bool)
      modifies this`tilt
      ensures tilt == ManualTilt(old(tilt), 0.0, animate, live.tiltConfig.duration)
      ensures tilt.target == 0.0
      ensures !(animate && live.tiltConfig.duration > 0) ==> tilt.current == 0.0 && tilt.animation == old(tilt).animation
      ensures animate && live.tiltConfig.duration > 0 ==>
                tilt.current == old(tilt).current
                && tilt.animation == Some(TiltAnimation(old(tilt).current, 0.0, live.tiltConfig.duration))
    {
      SetTiltAngle(0.0, animate);
    }

    // ------------------------------------------------ property setters
    // These write live values only; they leave the shadows as they were.

    /** The `progress` setter (and `setProgress`). `ok` is false when it throws
        (maxProgress negative). */
    method SetProgress(value: real) returns (ok: bool)
      modifies this`live, this`tilt
      ensures ok <==> SetProgressSpec(old(live), old(tilt), value).Some?
      ensures ok ==> live == old(live).(basic := old(live).basic.(progress := SetProgressSpec(old(live), old(tilt), value).value.0))
      ensures ok ==> tilt == SetProgressSpec(old(live), old(tilt), value).value.1
      ensures !ok ==> live == old(live) && tilt == old(tilt)
    {
      if live.basic.maxProgress < 0.0 {
        return false;
      }
      var oldValue := live.basic.progress;
      live := live.(basic := live.basic.(progress := Clamp(value, 0.0, live.basic.maxProgress)));
      if live.tiltConfig.enabled && oldValue != live.basic.progress {
        UpdateTiltAngle(live.basic.progress - oldValue);
      }
      ok := true;
    }

    /** The `diamondTiltEnabled` setter: disabling resets the tilt to 0 and cancels its animator. */
    method SetDiamondTiltEnabled(enabled: bool)
      modifies this`live, this`tilt
      ensures live == old(live).(tiltConfig := old(live).tiltConfig.(enabled := enabled))
      ensures !enabled ==> tilt == old(tilt).(current := 0.0, animation := None)
      ensures enabled ==> tilt == old(tilt)
    {
      live := live.(tiltConfig := live.tiltConfig.(enabled := enabled));
      if !enabled {
        tilt := tilt.(current := 0.0, animation := None);
      }
    }

    /** The `diamondSize` getter: the larger of the effective width and height. */
    method DiamondSize() returns (size: real)
      ensures size == MaxReal(ActualDiamondSize(live.icon.diamondWidth, IntrinsicWidth(live.icon.diamondDrawable), density),
                              ActualDiamondSize(live.icon.diamondHeight, IntrinsicHeight(live.icon.diamondDrawable), density))
      ensures density > 0.0 ==> size > 0.0
    {
      var w := ActualDiamondSize(live.icon.diamondWidth, IntrinsicWidth(live.icon.diamondDrawable), density);
      var h := ActualDiamondSize(live.icon.diamondHeight, IntrinsicHeight(live.icon.diamondDrawable), density);
      size := MaxReal(w, h);
    }

    /** `setMaxProgress` stores the value as given, without re-clamping progress. */
    method SetMaxProgress(value: real)
      modifies this`live
      ensures live == old(live).(basic := old(live).basic.(maxProgress := value))
    {
      live := live.(basic := live.basic.(maxProgress := value));
    }

    method SetBarHeight(value: real)
      modifies this`live
      ensures live == old(live).(basic := old(live).basic.(barHeight := value))
    {
      live := live.(basic := live.basic.(barHeight := value));
    }

    method SetArcMode(value: bool)
      modifies this`live
      ensures live == old(live).(arc := old(live).arc.(isArcMode := value))
    {
      live := live.(arc := live.arc.(isArcMode := value));
    }

    method SetArcHeight(value: real)
      modifies this`live
      ensures live == old(live).(arc := old(live).arc.(arcHeight := value))
    {
      live := live.(arc := live.arc.(arcHeight := value));
    }

    /** `setArcControlPosition` clamps to [0.1, 0.9]. */
    method SetArcControlPosition(value: real)
      modifies this`live
      ensures live == old(live).(arc := old(live).arc.(arcControlPosition := Clamp(value, 0.1, 0.9)))
      ensures old(Valid()) ==> Valid()
    {
      live := live.(arc := live.arc.(arcControlPosition := Clamp(value, 0.1, 0.9)));
    }

    method SetArcType(value: ArcType)
      modifies this`live
      ensures live == old(live).(arc := old(live).arc.(arcType := value))
    {
      live := live.(arc := live.arc.(arcType := value));
    }

    method SetArcControlHeight1(value: real)
      modifies this`live
      ensures live == old(live).(arc := old(live).arc.(arcControlHeight1 := value))
    {
      live := live.(arc := live.arc.(arcControlHeight1 := value));
    }

    method SetArcControlHeight2(value: real)
      modifies this`live
      ensures live == old(live).(arc := old(live).arc.(arcControlHeight2 := value))
    {
      live := live.(arc := live.arc.(arcControlHeight2 := value));
    }

    method SetStrokeCap(value: Cap)
      modifies this`live
      ensures live == old(live).(shape := old(live).shape.(strokeCap := value))
    {
      live := live.(shape := live.shape.(strokeCap := value));
    }

    method SetTopLeftRadius(value: real)
      modifies this`live
      ensures live == old(live).(shape := old(live).shape.(topLeftRadius := value))
    {
      live := live.(shape := live.shape.(topLeftRadius := value));
    }

    method SetTopRightRadius(value: real)
      modifies this`live
      ensures live == old(live).(shape := old(live).shape.(topRightRadius := value))
    {
      live := live.(shape := live.shape.(topRightRadius := value));
    }

    method SetBottomLeftRadius(value: real)
      modifies this`live
      ensures live == old(live).(shape := old(live).shape.(bottomLeftRadius := value))
    {
      live := live.(shape := live.shape.(bottomLeftRadius := value));
    }

    method SetBottomRightRadius(value: real)
      modifies this`live
      ensures live == old(live).(shape := old(live).shape.(bottomRightRadius := value))
    {
      live := live.(shape := live.shape.(bottomRightRadius := value));
    }

    method SetProgressStartRadius(value: real)
      modifies this`live
      ensures live == old(live).(shape := old(live).shape.(progressStartRadius := value))
    {
      live := live.(shape := live.shape.(progressStartRadius := value));
    }

    method SetProgressEndRadius(value: real)
      modifies this`live
      ensures live == old(live).(shape := old(live).shape.(progressEndRadius := value))
    {
      live := live.(shape := live.shape.(progressEndRadius := value));
    }

    method SetCapsuleShape(value: bool)
      modifies this`live
      ensures live == old(live).(shape := old(live).shape.(isCapsuleShape := value))
    {
      live := live.(shape := live.shape.(isCapsuleShape := value));
    }

    method SetTrackColor(value: int)
      modifies this`live
      ensures live == old(live).(colors := old(live).colors.(trackColor := value))
    {
      live := live.(colors := live.colors.(trackColor := value));
    }

    method SetDiamondDrawable(value: Option<Drawable>)
      modifies this`live
      ensures live == old(live).(icon := old(live).icon.(diamondDrawable := value))
    {
      live := live.(icon := live.icon.(diamondDrawable := value));
    }

    /** `setDiamondWidth` stores max(value, 0). */
    method SetDiamondWidth(value: real)
      modifies this`live
      ensures live == old(live).(icon := old(live).icon.(diamondWidth := AtLeast(value, 0.0)))
      ensures old(Valid()) ==> Valid()
    {
      live := live.(icon := live.icon.(diamondWidth := AtLeast(value, 0.0)));
    }

    /** `setDiamondHeight` stores max(value, 0). */
    method SetDiamondHeight(value: real)
      modifies this`live
      ensures live == old(live).(icon := old(live).icon.(diamondHeight := AtLeast(value, 0.0)))
      ensures old(Valid()) ==> Valid()
    {
      live := live.(icon := live.icon.(diamondHeight := AtLeast(value, 0.0)));
    }

    method SetDiamondOffsetY(value: real)
      modifies this`live
      ensures live == old(live).(icon := old(live).icon.(diamondOffsetY := value))
    {
      live := live.(icon := live.icon.(diamondOffsetY := value));
    }

    method SetDiamondRotateWithPath(value: bool)
      modifies this`live
      ensures live == old(live).(icon := old(live).icon.(diamondRotateWithPath := value))
    {
      live := live.(icon := live.icon.(diamondRotateWithPath := value));
    }

    /** `setDiamondTiltAngle` clamps to [-90, 90]. */
    method SetDiamondTiltAngle(value: real)
      modifies this`live
      ensures live == old(live).(tiltConfig := old(live).tiltConfig.(angle := Clamp(value, -90.0, 90.0)))
      ensures old(Valid()) ==> Valid()
    {
      live := live.(tiltConfig := live.tiltConfig.(angle := Clamp(value, -90.0, 90.0)));
    }

    method SetDiamondTiltSmooth(value: bool)
      modifies this`live
      ensures live == old(live).(tiltConfig := old(live).tiltConfig.(smooth := value))
    {
      live := live.(tiltConfig := live.tiltConfig.(smooth := value));
    }

    /** `setDiamondTiltDuration` clamps to [0, 1000]. */
    method SetDiamondTiltDuration(value: int)
      modifies this`live
      ensures live == old(live).(tiltConfig := old(live).tiltConfig.(duration := ClampInt(value, 0, 1000)))
      ensures old(Valid()) ==> Valid()
    {
      live := live.(tiltConfig := live.tiltConfig.(duration := ClampInt(value, 0, 1000)));
    }

    /** `setDiamondTiltParams` switches tilt on and sets the clamped angle, smoothing and clamped duration. */
    method SetDiamondTiltParams(tiltAngle: real, smooth: bool, duration: int)
      modifies this`live
      ensures live == old(live).(tiltConfig := old(live).tiltConfig.(enabled := true, angle := Clamp(tiltAngle, -90.0, 90.0), smooth := smooth, duration := ClampInt(duration, 0, 1000)))
      ensures old(Valid()) ==> Valid()
    {
      live := live.(tiltConfig := live.tiltConfig.(enabled := true, angle := Clamp(tiltAngle, -90.0, 90.0), smooth := smooth, duration := ClampInt(duration, 0, 1000)));
    }

    /** `setArcParams` sets height, clamped control position and type, and switches arc mode on. */
    method SetArcParams(height: real, controlPosition: real, arcTypeValue: ArcType)
      modifies this`live
      ensures live == old(live).(arc := old(live).arc.(arcHeight := height, arcControlPosition := Clamp(controlPosition, 0.1, 0.9), arcType := arcTypeValue, isArcMode := true))
      ensures old(Valid()) ==> Valid()
    {
      live := live.(arc := live.arc.(arcHeight := height, arcControlPosition := Clamp(controlPosition, 0.1, 0.9), arcType := arcTypeValue, isArcMode := true));
    }

    method SetCubicControlHeights(height1: real, height2: real)
      modifies this`live
      ensures live == old(live).(arc := old(live).arc.(arcControlHeight1 := height1, arcControlHeight2 := height2))
    {
      live := live.(arc := live.arc.(arcControlHeight1 := height1, arcControlHeight2 := height2));
    }

    /** `setBarCornerRadius` also sets all four corner radii. */
    method SetBarCornerRadius(value: real)
      modifies this`live
      ensures live == old(live).(shape := old(live).shape.(barCornerRadius := value, topLeftRadius := value, topRightRadius := value, bottomLeftRadius := value, bottomRightRadius := value))
    {
      live := live.(shape := live.shape.(barCornerRadius := value, topLeftRadius := value, topRightRadius := value, bottomLeftRadius := value, bottomRightRadius := value));
    }

    /** `setCornerRadius` sets the bar radius, the four corners and both progress ends. */
    method SetCornerRadius(radius: real)
      modifies this`live
      ensures live == old(live).(shape := old(live).shape.(barCornerRadius := radius, topLeftRadius := radius, topRightRadius := radius, bottomLeftRadius := radius, bottomRightRadius := radius, progressStartRadius := radius, progressEndRadius := radius))
    {
      live := live.(shape := live.shape.(barCornerRadius := radius, topLeftRadius := radius, topRightRadius := radius, bottomLeftRadius := radius, bottomRightRadius := radius, progressStartRadius := radius, progressEndRadius := radius));
    }

    method SetCornerRadii(topLeft: real, topRight: real, bottomRight: real, bottomLeft: real)
      modifies this`live
      ensures live == old(live).(shape := old(live).shape.(topLeftRadius := topLeft, topRightRadius := topRight, bottomRightRadius := bottomRight, bottomLeftRadius := bottomLeft))
    {
      live := live.(shape := live.shape.(topLeftRadius := topLeft, topRightRadius := topRight, bottomRightRadius := bottomRight, bottomLeftRadius := bottomLeft));
    }

    method SetProgressCornerRadius(startRadius: real, endRadius: real)
      modifies this`live
      ensures live == old(live).(shape := old(live).shape.(progressStartRadius := startRadius, progressEndRadius := endRadius))
    {
      live := live.(shape := live.shape.(progressStartRadius := startRadius, progressEndRadius := endRadius));
    }

    method SetGradientColors(gradient: seq<int>, positions: Option<seq<real>>)
      modifies this`live
      ensures live == old(live).(colors := old(live).colors.(gradientColors := gradient, gradientPositions := positions))
    {
      live := live.(colors := live.colors.(gradientColors := gradient, gradientPositions := positions));
    }

    /** `setDiamondSize` sets both dimensions, each at least 0. */
    method SetDiamondSize(size: real)
      modifies this`live
      ensures live == old(live).(icon := old(live).icon.(diamondWidth := AtLeast(size, 0.0), diamondHeight := AtLeast(size, 0.0)))
      ensures old(Valid()) ==> Valid()
    {
      live := live.(icon := live.icon.(diamondWidth := AtLeast(size, 0.0), diamondHeight := AtLeast(size, 0.0)));
    }

    /** `setDiamondDimensions` each dimension at least 0. */
    method SetDiamondDimensions(width: real, height: real)
      modifies this`live
      ensures live == old(live).(icon := old(live).icon.(diamondWidth := AtLeast(width, 0.0), diamondHeight := AtLeast(height, 0.0)))
      ensures old(Valid()) ==> Valid()
    {
      live := live.(icon := live.icon.(diamondWidth := AtLeast(width, 0.0), diamondHeight := AtLeast(height, 0.0)));
    }

    // --------------------------------------------------- chain setters
    // These write shadows and raise the flag; the live values are untouched.

    /** `setProgressPending`: clamps against the pending max; throws when that is negative. */
    method SetProgressPending(value: real) returns (ok: bool)
      modifies this`pending, this`hasPendingChanges
      ensures ok <==> old(pending).basic.maxProgress >= 0.0
      ensures ok ==> pending == old(pending).(basic := old(pending).basic.(progress := Clamp(value, 0.0, old(pending).basic.maxProgress)))
      ensures ok ==> hasPendingChanges
      ensures !ok ==> pending == old(pending) && hasPendingChanges == old(hasPendingChanges)
    {
      if pending.basic.maxProgress < 0.0 {
        return false;
      }
      pending := pending.(basic := pending.basic.(progress := Clamp(value, 0.0, pending.basic.maxProgress)));
      hasPendingChanges := true;
      ok := true;
    }

    /** `setMaxProgressPending` stores the value as given, without re-clamping progress. */
    method SetMaxProgressPending(value: real)
      modifies this`pending, this`hasPendingChanges
      ensures pending == old(pending).(basic := old(pending).basic.(maxProgress := value))
      ensures hasPendingChanges
    {
      pending := pending.(basic := pending.basic.(maxProgress := value));
      hasPendingChanges := true;
    }

    method SetBarHeightPending(value: real)
      modifies this`pending, this`hasPendingChanges
      ensures pending == old(pending).(basic := old(pending).basic.(barHeight := value))
      ensures hasPendingChanges
    {
      pending := pending.(basic := pending.basic.(barHeight := value));
      hasPendingChanges := true;
    }

    method SetArcModePending(value: bool)
      modifies this`pending, this`hasPendingChanges
      ensures pending == old(pending).(arc := old(pending).arc.(isArcMode := value))
      ensures hasPendingChanges
    {
      pending := pending.(arc := pending.arc.(isArcMode := value));
      hasPendingChanges := true;
    }

    method SetArcHeightPending(value: real)
      modifies this`pending, this`hasPendingChanges
      ensures pending == old(pending).(arc := old(pending).arc.(arcHeight := value))
      ensures hasPendingChanges
    {
      pending := pending.(arc := pending.arc.(arcHeight := value));
      hasPendingChanges := true;
    }

    /** `setArcControlPositionPending` clamps to [0.1, 0.9]. */
    method SetArcControlPositionPending(value: real)
      modifies this`pending, this`hasPendingChanges
      ensures pending == old(pending).(arc := old(pending).arc.(arcControlPosition := Clamp(value, 0.1, 0.9)))
      ensures hasPendingChanges
      ensures old(Valid()) ==> Valid()
    {
      pending := pending.(arc := pending.arc.(arcControlPosition := Clamp(value, 0.1, 0.9)));
      hasPendingChanges := true;
    }

    method SetArcTypePending(value: ArcType)
      modifies this`pending, this`hasPendingChanges
      ensures pending == old(pending).(arc := old(pending).arc.(arcType := value))
      ensures hasPendingChanges
    {
      pending := pending.(arc := pending.arc.(arcType := value));
      hasPendingChanges := true;
    }

    method SetArcControlHeight1Pending(value: real)
      modifies this`pending, this`hasPendingChanges
      ensures pending == old(pending).(arc := old(pending).arc.(arcControlHeight1 := value))
      ensures hasPendingChanges
    {
      pending := pending.(arc := pending.arc.(arcControlHeight1 := value));
      hasPendingChanges := true;
    }

    method SetArcControlHeight2Pending(value: real)
      modifies this`pending, this`hasPendingChanges
      ensures pending == old(pending).(arc := old(pending).arc.(arcControlHeight2 := value))
      ensures hasPendingChanges
    {
      pending := pending.(arc := pending.arc.(arcControlHeight2 := value));
      hasPendingChanges := true;
    }

    method SetStrokeCapPending(value: Cap)
      modifies this`pending, this`hasPendingChanges
      ensures pending == old(pending).(shape := old(pending).shape.(strokeCap := value))
      ensures hasPendingChanges
    {
      pending := pending.(shape := pending.shape.(strokeCap := value));
      hasPendingChanges := true;
    }

    method SetTopLeftRadiusPending(value: real)
      modifies this`pending, this`hasPendingChanges
      ensures pending == old(pending).(shape := old(pending).shape.(topLeftRadius := value))
      ensures hasPendingChanges
    {
      pending := pending.(shape := pending.shape.(topLeftRadius := value));
      hasPendingChanges := true;
    }

    method SetTopRightRadiusPending(value: real)
      modifies this`pending, this`hasPendingChanges
      ensures pending == old(pending).(shape := old(pending).shape.(topRightRadius := value))
      ensures hasPendingChanges
    {
      pending := pending.(shape := pending.shape.(topRightRadius := value));
      hasPendingChanges := true;
    }

    method SetBottomLeftRadiusPending(value: real)
      modifies this`pending, this`hasPendingChanges
      ensures pending == old(pending).(shape := old(pending).shape.(bottomLeftRadius := value))
      ensures hasPendingChanges
    {
      pending := pending.(shape := pending.shape.(bottomLeftRadius := value));
      hasPendingChanges := true;
    }

    method SetBottomRightRadiusPending(value: real)
      modifies this`pending, this`hasPendingChanges
      ensures pending == old(pending).(shape := old(pending).shape.(bottomRightRadius := value))
      ensures hasPendingChanges
    {
      pending := pending.(shape := pending.shape.(bottomRightRadius := value));
      hasPendingChanges := true;
    }

    method SetProgressStartRadiusPending(value: real)
      modifies this`pending, this`hasPendingChanges
      ensures pending == old(pending).(shape := old(pending).shape.(progressStartRadius := value))
      ensures hasPendingChanges
    {
      pending := pending.(shape := pending.shape.(progressStartRadius := value));
      hasPendingChanges := true;
    }

    method SetProgressEndRadiusPending(value: real)
      modifies this`pending, this`hasPendingChanges
      ensures pending == old(pending).(shape := old(pending).shape.(progressEndRadius := value))
      ensures hasPendingChanges
    {
      pending := pending.(shape := pending.shape.(progressEndRadius := value));
      hasPendingChanges := true;
    }

    method SetCapsuleShapePending(value: bool)
      modifies this`pending, this`hasPendingChanges
      ensures pending == old(pending).(shape := old(pending).shape.(isCapsuleShape := value))
      ensures hasPendingChanges
    {
      pending := pending.(shape := pending.shape.(isCapsuleShape := value));
      hasPendingChanges := true;
    }

    method SetTrackColorPending(value: int)
      modifies this`pending, this`hasPendingChanges
      ensures pending == old(pending).(colors := old(pending).colors.(trackColor := value))
      ensures hasPendingChanges
    {
      pending := pending.(colors := pending.colors.(trackColor := value));
      hasPendingChanges := true;
    }

    method SetDiamondDrawablePending(value: Option<Drawable>)
      modifies this`pending, this`hasPendingChanges
      ensures pending == old(pending).(icon := old(pending).icon.(diamondDrawable := value))
      ensures hasPendingChanges
    {
      pending := pending.(icon := pending.icon.(diamondDrawable := value));
      hasPendingChanges := true;
    }

    /** `setDiamondWidthPending` stores max(value, 0). */
    method SetDiamondWidthPending(value: real)
      modifies this`pending, this`hasPendingChanges
      ensures pending == old(pending).(icon := old(pending).icon.(diamondWidth := AtLeast(value, 0.0)))
      ensures hasPendingChanges
      ensures old(Valid()) ==> Valid()
    {
      pending := pending.(icon := pending.icon.(diamondWidth := AtLeast(value, 0.0)));
      hasPendingChanges := true;
    }

    /** `setDiamondHeightPending` stores max(value, 0). */
    method SetDiamondHeightPending(value: real)
      modifies this`pending, this`hasPendingChanges
      ensures pending == old(pending).(icon := old(pending).icon.(diamondHeight := AtLeast(value, 0.0)))
      ensures hasPendingChanges
      ensures old(Valid()) ==> Valid()
    {
      pending := pending.(icon := pending.icon.(diamondHeight := AtLeast(value, 0.0)));
      hasPendingChanges := true;
    }

    method SetDiamondOffsetYPending(value: real)
      modifies this`pending, this`hasPendingChanges
      ensures pending == old(pending).(icon := old(pending).icon.(diamondOffsetY := value))
      ensures hasPendingChanges
    {
      pending := pending.(icon := pending.icon.(diamondOffsetY := value));
      hasPendingChanges := true;
    }

    method SetDiamondRotateWithPathPending(value: bool)
      modifies this`pending, this`hasPendingChanges
      ensures pending == old(pending).(icon := old(pending).icon.(diamondRotateWithPath := value))
      ensures hasPendingChanges
    {
      pending := pending.(icon := pending.icon.(diamondRotateWithPath := value));
      hasPendingChanges := true;
    }

    /** `setDiamondTiltAnglePending` clamps to [-90, 90]. */
    method SetDiamondTiltAnglePending(value: real)
      modifies this`pending, this`hasPendingChanges
      ensures pending == old(pending).(tiltConfig := old(pending).tiltConfig.(angle := Clamp(value, -90.0, 90.0)))
      ensures hasPendingChanges
      ensures old(Valid()) ==> Valid()
    {
      pending := pending.(tiltConfig := pending.tiltConfig.(angle := Clamp(value, -90.0, 90.0)));
      hasPendingChanges := true;
    }

    method SetDiamondTiltSmoothPending(value: bool)
      modifies this`pending, this`hasPendingChanges
      ensures pending == old(pending).(tiltConfig := old(pending).tiltConfig.(smooth := value))
      ensures hasPendingChanges
    {
      pending := pending.(tiltConfig := pending.tiltConfig.(smooth := value));
      hasPendingChanges := true;
    }

    method SetDiamondTiltEnabledPending(value: bool)
      modifies this`pending, this`hasPendingChanges
      ensures pending == old(pending).(tiltConfig := old(pending).tiltConfig.(enabled := value))
      ensures hasPendingChanges
    {
      pending := pending.(tiltConfig := pending.tiltConfig.(enabled := value));
      hasPendingChanges := true;
    }

    /** `setDiamondTiltDurationPending` clamps to [0, 1000]. */
    method SetDiamondTiltDurationPending(value: int)
      modifies this`pending, this`hasPendingChanges
      ensures pending == old(pending).(tiltConfig := old(pending).tiltConfig.(duration := ClampInt(value, 0, 1000)))
      ensures hasPendingChanges
      ensures old(Valid()) ==> Valid()
    {
      pending := pending.(tiltConfig := pending.tiltConfig.(duration := ClampInt(value, 0, 1000)));
      hasPendingChanges := true;
    }

    /** `setDiamondTiltParamsPending` switches tilt on and sets the clamped angle, smoothing and clamped duration. */
    method SetDiamondTiltParamsPending(tiltAngle: real, smooth: bool, duration: int)
      modifies this`pending, this`hasPendingChanges
      ensures pending == old(pending).(tiltConfig := old(pending).tiltConfig.(enabled := true, angle := Clamp(tiltAngle, -90.0, 90.0), smooth := smooth, duration := ClampInt(duration, 0, 1000)))
      ensures hasPendingChanges
      ensures old(Valid()) ==> Valid()
    {
      pending := pending.(tiltConfig := pending.tiltConfig.(enabled := true, angle := Clamp(tiltAngle, -90.0, 90.0), smooth := smooth, duration := ClampInt(duration, 0, 1000)));
      hasPendingChanges := true;
    }

    /** `setArcParamsPending` sets height, clamped control position and type, and switches arc mode on. */
    method SetArcParamsPending(height: real, controlPosition: real, arcTypeValue: ArcType)
      modifies this`pending, this`hasPendingChanges
      ensures pending == old(pending).(arc := old(pending).arc.(arcHeight := height, arcControlPosition := Clamp(controlPosition, 0.1, 0.9), arcType := arcTypeValue, isArcMode := true))
      ensures hasPendingChanges
      ensures old(Valid()) ==> Valid()
    {
      pending := pending.(arc := pending.arc.(arcHeight := height, arcControlPosition := Clamp(controlPosition, 0.1, 0.9), arcType := arcTypeValue, isArcMode := true));
      hasPendingChanges := true;
    }

    method SetCubicControlHeightsPending(height1: real, height2: real)
      modifies this`pending, this`hasPendingChanges
      ensures pending == old(pending).(arc := old(pending).arc.(arcControlHeight1 := height1, arcControlHeight2 := height2))
      ensures hasPendingChanges
    {
      pending := pending.(arc := pending.arc.(arcControlHeight1 := height1, arcControlHeight2 := height2));
      hasPendingChanges := true;
    }

    /** `setBarCornerRadiusPending` also sets all four corner radii. */
    method SetBarCornerRadiusPending(value: real)
      modifies this`pending, this`hasPendingChanges
      ensures pending == old(pending).(shape := old(pending).shape.(barCornerRadius := value, topLeftRadius := value, topRightRadius := value, bottomLeftRadius := value, bottomRightRadius := value))
      ensures hasPendingChanges
    {
      pending := pending.(shape := pending.shape.(barCornerRadius := value, topLeftRadius := value, topRightRadius := value, bottomLeftRadius := value, bottomRightRadius := value));
      hasPendingChanges := true;
    }

    /** `setCornerRadiusPending` sets the bar radius, the four corners and both progress ends. */
    method SetCornerRadiusPending(radius: real)
      modifies this`pending, this`hasPendingChanges
      ensures pending == old(pending).(shape := old(pending).shape.(barCornerRadius := radius, topLeftRadius := radius, topRightRadius := radius, bottomLeftRadius := radius, bottomRightRadius := radius, progressStartRadius := radius, progressEndRadius := radius))
      ensures hasPendingChanges
    {
      pending := pending.(shape := pending.shape.(barCornerRadius := radius, topLeftRadius := radius, topRightRadius := radius, bottomLeftRadius := radius, bottomRightRadius := radius, progressStartRadius := radius, progressEndRadius := radius));
      hasPendingChanges := true;
    }

    method SetCornerRadiiPending(topLeft: real, topRight: real, bottomRight: real, bottomLeft: real)
      modifies this`pending, this`hasPendingChanges
      ensures pending == old(pending).(shape := old(pending).shape.(topLeftRadius := topLeft, topRightRadius := topRight, bottomRightRadius := bottomRight, bottomLeftRadius := bottomLeft))
      ensures hasPendingChanges
    {
      pending := pending.(shape := pending.shape.(topLeftRadius := topLeft, topRightRadius := topRight, bottomRightRadius := bottomRight, bottomLeftRadius := bottomLeft));
      hasPendingChanges := true;
    }

    method SetProgressCornerRadiusPending(startRadius: real, endRadius: real)
      modifies this`pending, this`hasPendingChanges
      ensures pending == old(pending).(shape := old(pending).shape.(progressStartRadius := startRadius, progressEndRadius := endRadius))
      ensures hasPendingChanges
    {
      pending := pending.(shape := pending.shape.(progressStartRadius := startRadius, progressEndRadius := endRadius));
      hasPendingChanges := true;
    }

    method SetGradientColorsPending(gradient: seq<int>, positions: Option<seq<real>>)
      modifies this`pending, this`hasPendingChanges
      ensures pending == old(pending).(colors := old(pending).colors.(gradientColors := gradient, gradientPositions := positions))
      ensures hasPendingChanges
    {
      pending := pending.(colors := pending.colors.(gradientColors := gradient, gradientPositions := positions));
      hasPendingChanges := true;
    }

    /** `setDiamondSizePending` sets both dimensions, each at least 0. */
    method SetDiamondSizePending(size: real)
      modifies this`pending, this`hasPendingChanges
      ensures pending == old(pending).(icon := old(pending).icon.(diamondWidth := AtLeast(size, 0.0), diamondHeight := AtLeast(size, 0.0)))
      ensures hasPendingChanges
      ensures old(Valid()) ==> Valid()
    {
      pending := pending.(icon := pending.icon.(diamondWidth := AtLeast(size, 0.0), diamondHeight := AtLeast(size, 0.0)));
      hasPendingChanges := true;
    }

    /** `setDiamondDimensionsPending` each dimension at least 0. */
    method SetDiamondDimensionsPending(width: real, height: real)
      modifies this`pending, this`hasPendingChanges
      ensures pending == old(pending).(icon := old(pending).icon.(diamondWidth := AtLeast(width, 0.0), diamondHeight := AtLeast(height, 0.0)))
      ensures hasPendingChanges
      ensures old(Valid()) ==> Valid()
    {
      pending := pending.(icon := pending.icon.(diamondWidth := AtLeast(width, 0.0), diamondHeight := AtLeast(height, 0.0)));
      hasPendingChanges := true;
    }

    // ------------------------------------------------------------ apply

    /** The arc group of `applyPendingChanges`. */
    method CommitArc()
      requires Clamped(pending)
      modifies this`live
      ensures live == old(live).(arc := pending.arc)
    {
      var p := pending.arc;
      if p.isArcMode != live.arc.isArcMode { SetArcMode(p.isArcMode); }
      if p.arcHeight != live.arc.arcHeight { SetArcHeight(p.arcHeight); }
      if p.arcControlPosition != live.arc.arcControlPosition {
        SetArcControlPosition(Clamp(p.arcControlPosition, 0.1, 0.9));
      }
      if p.arcType != live.arc.arcType { SetArcType(p.arcType); }
      if p.arcControlHeight1 != live.arc.arcControlHeight1 { SetArcControlHeight1(p.arcControlHeight1); }
      if p.arcControlHeight2 != live.arc.arcControlHeight2 { SetArcControlHeight2(p.arcControlHeight2); }
    }

    /** The style group: the bar radius setter fans out to the four corners, then the
        corners are copied together when any still differs, then both progress ends. */
    method CommitShape()
      modifies this`live
      ensures live == old(live).(shape := pending.shape)
    {
      var p := pending.shape;
      if p.strokeCap != live.shape.strokeCap { SetStrokeCap(p.strokeCap); }
      if p.barCornerRadius != live.shape.barCornerRadius { SetBarCornerRadius(p.barCornerRadius); }
      if p.topLeftRadius != live.shape.topLeftRadius || p.topRightRadius != live.shape.topRightRadius
         || p.bottomLeftRadius != live.shape.bottomLeftRadius || p.bottomRightRadius != live.shape.bottomRightRadius {
        SetCornerRadii(p.topLeftRadius, p.topRightRadius, p.bottomRightRadius, p.bottomLeftRadius);
      }
      if p.progressStartRadius != live.shape.progressStartRadius || p.progressEndRadius != live.shape.progressEndRadius {
        SetProgressCornerRadius(p.progressStartRadius, p.progressEndRadius);
      }
      if p.isCapsuleShape != live.shape.isCapsuleShape { SetCapsuleShape(p.isCapsuleShape); }
    }

    /** The colour group; the gradient arrays are compared by content. */
    method CommitColors()
      modifies this`live
      ensures live == old(live).(colors := pending.colors)
    {
      var p := pending.colors;
      if p.trackColor != live.colors.trackColor { SetTrackColor(p.trackColor); }
      if p.gradientColors != live.colors.gradientColors || p.gradientPositions != live.colors.gradientPositions {
        SetGradientColors(p.gradientColors, p.gradientPositions);
      }
    }

    /** The diamond-icon group. */
    method CommitIcon()
      requires Clamped(pending)
      modifies this`live
      ensures live == old(live).(icon := pending.icon)
    {
      var p := pending.icon;
      if p.diamondDrawable != live.icon.diamondDrawable { SetDiamondDrawable(p.diamondDrawable); }
      if p.diamondWidth != live.icon.diamondWidth { SetDiamondWidth(p.diamondWidth); }
      if p.diamondHeight != live.icon.diamondHeight { SetDiamondHeight(p.diamondHeight); }
      if p.diamondOffsetY != live.icon.diamondOffsetY { SetDiamondOffsetY(p.diamondOffsetY); }
      if p.diamondRotateWithPath != live.icon.diamondRotateWithPath { SetDiamondRotateWithPath(p.diamondRotateWithPath); }
    }

    /** The tilt group; switching tilt off resets the tilt through its setter. */
    method CommitTilt()
      requires Clamped(pending)
      modifies this`live, this`tilt
      ensures live == old(live).(tiltConfig := pending.tiltConfig)
      ensures tilt == if old(live).tiltConfig.enabled && !pending.tiltConfig.enabled
                      then old(tilt).(current := 0.0, animation := None) else old(tilt)
    {
      var p := pending.tiltConfig;
      if p.enabled != live.tiltConfig.enabled { SetDiamondTiltEnabled(p.enabled); }
      if p.angle != live.tiltConfig.angle { SetDiamondTiltAngle(p.angle); }
      if p.smooth != live.tiltConfig.smooth { SetDiamondTiltSmooth(p.smooth); }
      if p.duration != live.tiltConfig.duration { SetDiamondTiltDuration(p.duration); }
    }

    /** `apply()` / `applyPendingChanges`: commits each differing shadow, in the source's
        order, through the property setters, then re-synchronises the shadows. `ok` is
        false when the progress clamp throws; nothing has changed by then. */
    method Apply() returns (ok: bool)
      requires Valid()
      modifies this`live, this`pending, this`hasPendingChanges, this`tilt
      ensures Valid()
      ensures ok <==> ApplySpec(old(Snapshot())).Applied?
      ensures ok ==> Snapshot() == ApplySpec(old(Snapshot())).state
      ensures !ok ==> Snapshot() == old(Snapshot())
    {
      if !hasPendingChanges {
        return true;
      }
      var p := pending.basic;
      // progress first, through its setter (which clamps against the live maximum)
      if p.progress != live.basic.progress {
        if p.maxProgress < 0.0 {
          return false;
        }
        ok := SetProgress(Clamp(p.progress, 0.0, p.maxProgress));
        if !ok {
          return false;
        }
      }
      if p.maxProgress != live.basic.maxProgress { SetMaxProgress(p.maxProgress); }
      if p.barHeight != live.basic.barHeight { SetBarHeight(p.barHeight); }
      CommitArc();
      CommitShape();
      CommitColors();
      CommitIcon();
      CommitTilt();
      ResetPendingParams();
      ok := true;
    }
  }

  // ------------------------------------------------------------ lemmas

  /** `apply()` with nothing pending changes nothing. */
  lemma ApplyWithoutPendingIsNoOp(s: State)
    requires Clamped(s.live) && Clamped(s.pending) && !s.hasPending
    ensures ApplySpec(s) == Applied(s)
  {
  }

  /** After a successful `apply()` every shadow equals its live value, the flag is clear
      and the clamps still hold; a second `apply()` then changes nothing. */
  lemma ApplySynchronises(s: State)
    requires Clamped(s.live) && Clamped(s.pending)
    requires ApplySpec(s).Applied?
    ensures var r := ApplySpec(s).state;
      (s.hasPending ==> r.pending == r.live && !r.hasPending)
      && Clamped(r.live) && Clamped(r.pending)
      && ApplySpec(r) == Applied(r)
  {
    var r := ApplySpec(s).state;
    if s.hasPending {
      assert r.live == s.pending.(basic := s.pending.basic.(progress := r.live.basic.progress));
    }
  }

  /** `apply()` throws exactly when the progress shadow differs and either the pending or
      the live maximum is negative. */
  lemma ApplyThrowsIff(s: State)
    requires Clamped(s.live) && Clamped(s.pending)
    ensures ApplySpec(s) == Threw <==>
      s.hasPending && s.pending.basic.progress != s.live.basic.progress
      && (s.pending.basic.maxProgress < 0.0 || s.live.basic.maxProgress < 0.0)
  {
  }

  /** Every parameter takes its shadow's value, except progress: it is committed before the
      maximum, through the setter's clamp against the maximum that was live before the
      batch, so a changed progress lands in [0, min(live max, pending max)]. */
  lemma ApplyCommitsShadows(s: State)
    requires Clamped(s.live) && Clamped(s.pending) && s.hasPending
    requires ApplySpec(s).Applied?
    ensures var live := ApplySpec(s).state.live;
      live.arc == s.pending.arc && live.shape == s.pending.shape && live.colors == s.pending.colors
      && live.icon == s.pending.icon && live.tiltConfig == s.pending.tiltConfig
      && live.basic.maxProgress == s.pending.basic.maxProgress && live.basic.barHeight == s.pending.basic.barHeight
      && (s.pending.basic.progress != s.live.basic.progress ==>
            0.0 <= live.basic.progress <= s.live.basic.maxProgress && live.basic.progress <= s.pending.basic.maxProgress)
      && (s.pending.basic.progress == s.live.basic.progress ==> live.basic.progress == s.live.basic.progress)
  {
  }

  /** One batch that raises the maximum cannot carry progress past the previous maximum:
      the pending progress is cut back to the old maximum. */
  lemma RaisingMaxInSameBatchCapsProgress(s: State)
    requires Clamped(s.live) && Clamped(s.pending) && s.hasPending
    requires 0.0 <= s.live.basic.maxProgress < s.pending.basic.progress <= s.pending.basic.maxProgress
    requires s.live.basic.progress <= s.live.basic.maxProgress
    ensures ApplySpec(s).Applied?
    ensures ApplySpec(s).state.live.basic.progress == s.live.basic.maxProgress < s.pending.basic.progress
    ensures ApplySpec(s).state.live.basic.maxProgress == s.pending.basic.maxProgress
  {
  }

  /** The immediate setters leave the shadows alone, so a progress set immediately is
      overwritten by the stale shadow at the next `apply()` that any other chain call
      triggers. */
  lemma StaleShadowOverridesImmediateProgress(s: State, v: real)
    requires Clamped(s.live) && Clamped(s.pending) && s.hasPending
    requires s.live.basic.maxProgress >= 0.0
    requires 0.0 <= s.pending.basic.progress <= s.pending.basic.maxProgress
    requires s.pending.basic.progress <= s.live.basic.maxProgress
    requires SetProgressSpec(s.live, s.tilt, v).Some?
    ensures var t := SetProgressSpec(s.live, s.tilt, v).value;
            var s2 := s.(live := s.live.(basic := s.live.basic.(progress := t.0)), tilt := t.1);
            ApplySpec(s2).Applied? && ApplySpec(s2).state.live.basic.progress == s.pending.basic.progress
  {
  }

  /** With tilt enabled before the batch, an increase of progress targets +tiltAngle and a
      decrease targets -tiltAngle (the angle that was live). */
  lemma ApplyTiltFollowsDirection(s: State)
    requires Clamped(s.live) && Clamped(s.pending) && s.hasPending
    requires ApplySpec(s).Applied? && s.live.tiltConfig.enabled
    ensures var r := ApplySpec(s).state;
      (r.live.basic.progress > s.live.basic.progress ==> r.tilt.target == s.live.tiltConfig.angle)
      && (r.live.basic.progress < s.live.basic.progress ==> r.tilt.target == -s.live.tiltConfig.angle)
  {
  }

  /** Without smoothing (or with duration 0) the tilt jumps to its target at once, so an
      enabled tilt then sits at +-tiltAngle; with smoothing an animation toward it starts
      from the current angle. */
  lemma ApplyTiltImmediateOrAnimated(s: State)
    requires Clamped(s.live) && Clamped(s.pending) && s.hasPending
    requires ApplySpec(s).Applied? && s.live.tiltConfig.enabled && s.pending.tiltConfig.enabled
    requires ApplySpec(s).state.live.basic.progress != s.live.basic.progress
    ensures var r := ApplySpec(s).state.tilt;
      var c := s.live.tiltConfig;
      (!(c.smooth && c.duration > 0) ==> r.current == r.target && (r.current == c.angle || r.current == -c.angle))
      && (c.smooth && c.duration > 0 ==>
            r.current == s.tilt.current && r.animation == Some(TiltAnimation(s.tilt.current, r.target, c.duration)))
  {
  }

  /** A batch that disables tilt leaves the diamond upright with no tilt animation; a
      batch where tilt stays disabled leaves the tilt as it was. */
  lemma ApplyDisabledTilt(s: State)
    requires Clamped(s.live) && Clamped(s.pending) && s.hasPending
    requires ApplySpec(s).Applied? && !s.pending.tiltConfig.enabled
    ensures s.live.tiltConfig.enabled ==>
      ApplySpec(s).state.tilt.current == 0.0 && ApplySpec(s).state.tilt.animation.None?
    ensures !s.live.tiltConfig.enabled ==> ApplySpec(s).state.tilt == s.tilt
  {
  }

  /** Reversing the direction of a progress change mirrors the tilt target. */
  lemma TiltTargetAntisymmetric(delta: real, tiltAngle: real, current: real)
    requires delta != 0.0
    ensures TiltTarget(-delta, tiltAngle, current) == -TiltTarget(delta, tiltAngle, current)
  {
  }
}
