/** ArcProgressBar: an arc whose parameters are written to pending shadows by the chain
    setters and committed, in ten numbered steps, by `apply()`. The public properties are
    "chain setter, then apply". */
module ArcBar {
  import opened KotlinStd
  import opened Graphics

  /** The eleven parameters that have a pending shadow. The gradient stop positions are
      an array compared by reference; the gradient colours are compared by content. */
  datatype ArcParams = ArcParams(
    bgColor: int, progressColor: int, progress: real, maxProgress: real, strokeWidth: real,
    startAngle: int, sweepAngle: int, useGradient: bool,
    gradientColors: seq<int>, gradientPositions: array?<real>, strokeCap: Cap)

  datatype State = State(live: ArcParams, pending: ArcParams, hasPending: bool)

  /** The outcome of `applyPendingChanges`: when a `coerceIn` throws, the steps before it
      have already been committed and the shadows and flag are left as they were. */
  datatype ApplyResult = ApplyResult(threw: bool, state: State)

  /** Step 9's test: the colours differ in content or the positions array is another one. */
  predicate GradientChanged(live: ArcParams, pending: ArcParams) {
    pending.gradientColors != live.gradientColors || pending.gradientPositions != live.gradientPositions
  }

  /** Steps 3 and 4 of `applyPendingChanges` on `l`: progress clamped against the pending
      maximum, then the maximum assigned and progress re-clamped against it. `threw` is
      the IllegalArgumentException of a `coerceIn` with a negative maximum; the
      maximum is already assigned when step 4 throws. */
  function CommitProgressSpec(l: ArcParams, p: ArcParams): (r: (bool, ArcParams))
    ensures r.1 == l.(progress := r.1.progress, maxProgress := r.1.maxProgress)
  {
    if p.progress != l.progress && p.maxProgress < 0.0 then (true, l)
    else
      var l3 := if p.progress != l.progress then l.(progress := Clamp(p.progress, 0.0, p.maxProgress)) else l;
      if p.maxProgress == l3.maxProgress then (false, l3)
      else if p.maxProgress < 0.0 then (true, l3.(maxProgress := p.maxProgress))
      else (false, l3.(maxProgress := p.maxProgress, progress := Clamp(l3.progress, 0.0, p.maxProgress)))
  }

  /** Steps 5 to 10 on `l`: every remaining shadow is taken; step 9 also switches the
      gradient on when the colours differ in content or the positions array is another one. */
  function CommitRestSpec(l: ArcParams, p: ArcParams): ArcParams {
    p.(bgColor := l.bgColor, progressColor := l.progressColor, progress := l.progress, maxProgress := l.maxProgress,
       useGradient := if GradientChanged(l, p) then true else p.useGradient)
  }

  /** `applyPendingChanges` in closed form. */
  function ApplySpec(s: State): (r: ApplyResult)
    ensures !s.hasPending ==> r == ApplyResult(false, s)
  {
    if !s.hasPending then ApplyResult(false, s)
    else
      var p := s.pending;
      var l12 := s.live.(bgColor := p.bgColor, progressColor := p.progressColor);
      var (threw, l34) := CommitProgressSpec(l12, p);
      if threw then ApplyResult(true, s.(live := l34))
      else
        var l := CommitRestSpec(l34, p);
        ApplyResult(false, State(l, l, false))
  }

  /** `getProgressPercent`: progress / max * 100; `None` where the float division gives
      NaN or an infinity (max == 0). */
  function ProgressPercent(progress: real, maxProgress: real): (r: Option<real>)
    ensures r.None? <==> maxProgress == 0.0
    ensures r.Some? && 0.0 <= progress <= maxProgress ==> 0.0 <= r.value <= 100.0
    ensures r.Some? && progress == maxProgress ==> r.value == 100.0
  {
    if maxProgress == 0.0 then None else Some(progress / maxProgress * 100.0)
  }

  /** The sweep `onDraw` gives the progress arc: progress / max of the background sweep. */
  function ProgressSweep(progress: real, maxProgress: real, sweepAngle: int): (r: Option<real>)
    ensures r.None? <==> maxProgress == 0.0
    ensures r.Some? && 0.0 <= progress <= maxProgress && sweepAngle >= 0 ==> 0.0 <= r.value <= sweepAngle as real
    ensures r.Some? && progress == 0.0 ==> r.value == 0.0
    ensures r.Some? && progress == maxProgress ==> r.value == sweepAngle as real
  {
    if maxProgress == 0.0 then None
    else
      var f := progress / maxProgress;
      assert 0.0 <= progress <= maxProgress && sweepAngle >= 0 ==> f * sweepAngle as real <= 1.0 * sweepAngle as real by {
        if 0.0 <= progress <= maxProgress && sweepAngle >= 0 {
          assert f <= 1.0;
        }
      }
      Some(f * sweepAngle as real)
  }

  /** `onMeasure`: the view is made square, on the smaller measured side. */
  function MeasureSquare(measuredWidth: int, measuredHeight: int): (side: int)
    ensures side <= measuredWidth && side <= measuredHeight
    ensures side == measuredWidth || side == measuredHeight
  {
    MinInt(measuredWidth, measuredHeight)
  }

  /** A running `progressAnimator`: from `from` to `to` over `duration` ms. */
  datatype ProgressAnimation = ProgressAnimation(from: real, to: real, duration: int)

  class ArcProgressBar {
    var live: ArcParams
    var pending: ArcParams
    var hasPendingChanges: bool
    var progressAnimator: Option<ProgressAnimation>
    /** The arc's bounds, `rectF`, kept by `updateRectF`. */
    var rect: RectF
    var width: int
    var height: int

    function Snapshot(): State
      reads this
    {
      State(live, pending, hasPendingChanges)
    }

    /** The view as constructed without XML attributes. */
    constructor ()
      ensures live == ArcParams(Argb(0xFFF0F0F0), Argb(0xFFFFC107), 0.0, 100.0, 40.0, 180, 180, true,
                                [Argb(0xFFEBB400), Argb(0xFFEBB400)], live.gradientPositions, Round)
      ensures live.gradientPositions != null && fresh(live.gradientPositions)
      ensures live.gradientPositions[..] == [0.0, 1.0]
      ensures pending == live && !hasPendingChanges && progressAnimator.None?
    {
      var positions := new real[2];
      positions[0], positions[1] := 0.0, 1.0;
      live := ArcParams(Argb(0xFFF0F0F0), Argb(0xFFFFC107), 0.0, 100.0, 40.0, 180, 180, true,
                        [Argb(0xFFEBB400), Argb(0xFFEBB400)], positions, Round);
      progressAnimator := None;
      rect := RectF(0.0, 0.0, 0.0, 0.0);
      width, height := 0, 0;
      new;
      ResetPendingParams();
    }

    /** `resetPendingParams`: every shadow takes its live value and the flag is cleared. */
    method ResetPendingParams()
      modifies this`pending, this`hasPendingChanges
      ensures pending == live && !hasPendingChanges
    {
      pending := live;
      hasPendingChanges := false;
    }

    /** Steps 3 and 4 of `applyPendingChanges`. */
    method CommitProgress() returns (threw: bool)
      modifies this`live
      ensures (threw, live) == CommitProgressSpec(old(live), pending)
    {
      var p := pending;
      if p.progress != live.progress {
        if p.maxProgress < 0.0 {
          return true;
        }
        live := live.(progress := Clamp(p.progress, 0.0, p.maxProgress));
      }
      if p.maxProgress != live.maxProgress {
        live := live.(maxProgress := p.maxProgress);
        if live.maxProgress < 0.0 {
          return true;
        }
        live := live.(progress := Clamp(live.progress, 0.0, live.maxProgress));
        // the source also copies progress into its shadow here; resetPendingParams
        // overwrites that copy at the end of the batch
      }
      threw := false;
    }

    /** Steps 5 to 10 of `applyPendingChanges`. */
    method CommitRest()
      modifies this`live
      ensures live == CommitRestSpec(old(live), pending)
    {
      var p := pending;
      if p.strokeWidth != live.strokeWidth { live := live.(strokeWidth := p.strokeWidth); }
      if p.startAngle != live.startAngle { live := live.(startAngle := p.startAngle); }
      if p.sweepAngle != live.sweepAngle { live := live.(sweepAngle := p.sweepAngle); }
      if p.useGradient != live.useGradient { live := live.(useGradient := p.useGradient); }
      if p.gradientColors != live.gradientColors || p.gradientPositions != live.gradientPositions {
        // the source also raises the gradient shadow here; resetPendingParams overwrites it
        live := live.(gradientColors := p.gradientColors, gradientPositions := p.gradientPositions,
                      useGradient := true);
      }
      if p.strokeCap != live.strokeCap { live := live.(strokeCap := p.strokeCap); }
    }

    /** `apply()` / `applyPendingChanges`, in the source's ten steps. `threw` reports the
        IllegalArgumentException of a `coerceIn` with a negative maximum. */
    method Apply() returns (threw: bool)
      modifies this`live, this`pending, this`hasPendingChanges
      ensures ApplyResult(threw, Snapshot()) == ApplySpec(old(Snapshot()))
    {
      if !hasPendingChanges {
        return false;
      }
      // 1. background colour, 2. progress colour
      if pending.bgColor != live.bgColor { live := live.(bgColor := pending.bgColor); }
      if pending.progressColor != live.progressColor { live := live.(progressColor := pending.progressColor); }
      // 3. progress, 4. maximum
      threw := CommitProgress();
      if threw {
        return;
      }
      // 5 to 10
      CommitRest();
      ResetPendingParams();
    }

    // ------------------------------------------------------ chain setters

    method SetBgColor(color: int)
      modifies this`pending, this`hasPendingChanges
      ensures pending == old(pending).(bgColor := color) && hasPendingChanges
    {
      pending := pending.(bgColor := color);
      hasPendingChanges := true;
    }

    /** `setProgressColor`: a solid colour, which also switches the pending gradient off. */
    method SetProgressColor(color: int)
      modifies this`pending, this`hasPendingChanges
      ensures pending == old(pending).(progressColor := color, useGradient := false) && hasPendingChanges
    {
      pending := pending.(progressColor := color, useGradient := false);
      hasPendingChanges := true;
    }

    /** `setProgress`: stored unclamped; `apply()` clamps it. */
    method SetProgress(progress: real)
      modifies this`pending, this`hasPendingChanges
      ensures pending == old(pending).(progress := progress) && hasPendingChanges
    {
      pending := pending.(progress := progress);
      hasPendingChanges := true;
    }

    method SetMaxProgress(maxProgress: real)
      modifies this`pending, this`hasPendingChanges
      ensures pending == old(pending).(maxProgress := maxProgress) && hasPendingChanges
    {
      pending := pending.(maxProgress := maxProgress);
      hasPendingChanges := true;
    }

    method SetStrokeWidth(width: real)
      modifies this`pending, this`hasPendingChanges
      ensures pending == old(pending).(strokeWidth := width) && hasPendingChanges
    {
      pending := pending.(strokeWidth := width);
      hasPendingChanges := true;
    }

    method SetStartAngle(angle: int)
      modifies this`pending, this`hasPendingChanges
      ensures pending == old(pending).(startAngle := angle) && hasPendingChanges
    {
      pending := pending.(startAngle := angle);
      hasPendingChanges := true;
    }

    method SetSweepAngle(angle: int)
      modifies this`pending, this`hasPendingChanges
      ensures pending == old(pending).(sweepAngle := angle) && hasPendingChanges
    {
      pending := pending.(sweepAngle := angle);
      hasPendingChanges := true;
    }

    method SetUseGradient(useGradient: bool)
      modifies this`pending, this`hasPendingChanges
      ensures pending == old(pending).(useGradient := useGradient) && hasPendingChanges
    {
      pending := pending.(useGradient := useGradient);
      hasPendingChanges := true;
    }

    /** `setGradientColors`: stores the arrays as given and switches the pending gradient on. */
    method SetGradientColors(colors: seq<int>, positions: array?<real>)
      modifies this`pending, this`hasPendingChanges
      ensures pending == old(pending).(gradientColors := colors, gradientPositions := positions, useGradient := true)
      ensures hasPendingChanges
    {
      pending := pending.(gradientColors := colors, gradientPositions := positions, useGradient := true);
      hasPendingChanges := true;
    }

    method SetStrokeCap(cap: Cap)
      modifies this`pending, this`hasPendingChanges
      ensures pending == old(pending).(strokeCap := cap) && hasPendingChanges
    {
      pending := pending.(strokeCap := cap);
      hasPendingChanges := true;
    }

    /** `restoreGradient`: switches the pending gradient back on. */
    method RestoreGradient()
      modifies this`pending, this`hasPendingChanges
      ensures pending == old(pending).(useGradient := true) && hasPendingChanges
    {
      pending := pending.(useGradient := true);
      hasPendingChanges := true;
    }

    // ------------------------------------------------------ properties

    /** The `progress` property setter: `setProgress(value).apply()`. */
    method SetProgressAndApply(value: real) returns (threw: bool)
      modifies this`live, this`pending, this`hasPendingChanges
      ensures ApplyResult(threw, Snapshot())
              == ApplySpec(State(old(live), old(pending).(progress := value), true))
    {
      SetProgress(value);
      threw := Apply();
    }

    /** The `maxProgress` property setter: `setMaxProgress(value).apply()`. */
    method SetMaxProgressAndApply(value: real) returns (threw: bool)
      modifies this`live, this`pending, this`hasPendingChanges
      ensures ApplyResult(threw, Snapshot())
              == ApplySpec(State(old(live), old(pending).(maxProgress := value), true))
    {
      SetMaxProgress(value);
      threw := Apply();
    }

    /** The `progressColor` property setter: a solid colour, applied at once. */
    method SetProgressColorAndApply(color: int) returns (threw: bool)
      modifies this`live, this`pending, this`hasPendingChanges
      ensures ApplyResult(threw, Snapshot())
              == ApplySpec(State(old(live), old(pending).(progressColor := color, useGradient := false), true))
    {
      SetProgressColor(color);
      threw := Apply();
    }

    /** The `useGradient` property setter. */
    method SetUseGradientAndApply(useGradient: bool) returns (threw: bool)
      modifies this`live, this`pending, this`hasPendingChanges
      ensures ApplyResult(threw, Snapshot())
              == ApplySpec(State(old(live), old(pending).(useGradient := useGradient), true))
    {
      SetUseGradient(useGradient);
      threw := Apply();
    }

    /** `getProgressPercent`. */
    method GetProgressPercent() returns (percent: Option<real>)
      ensures percent == ProgressPercent(live.progress, live.maxProgress)
    {
      if live.maxProgress == 0.0 {
        percent := None;
      } else {
        percent := Some(live.progress / live.maxProgress * 100.0);
      }
    }

    /** `updateRectF`: the arc's bounds, half a stroke inside the view. */
    method UpdateRectF()
      modifies this`rect
      ensures rect == StrokeInsetRect(width, height, live.strokeWidth)
    {
      var padding := live.strokeWidth / 2.0;
      rect := RectF(padding, padding, width as real - padding, height as real - padding);
    }

    /** `onSizeChanged`: records the size and recomputes the arc's bounds. */
    method OnSizeChanged(w: int, h: int)
      modifies this`width, this`height, this`rect
      ensures width == w && height == h
      ensures rect == StrokeInsetRect(w, h, live.strokeWidth)
    {
      width, height := w, h;
      UpdateRectF();
    }

    /** `setProgressWithAnimation`: cancels the running animator and starts one from the
        live progress to the target clamped to [0, max]; when max is negative the clamp
        throws after the cancel, so no animation is left running. */
    method SetProgressWithAnimation(target: real, duration: int) returns (threw: bool)
      modifies this`progressAnimator
      ensures threw <==> live.maxProgress < 0.0
      ensures !threw ==> progressAnimator == Some(ProgressAnimation(live.progress, Clamp(target, 0.0, live.maxProgress), duration))
      ensures threw ==> progressAnimator.None?
    {
      progressAnimator := None;
      if live.maxProgress < 0.0 {
        return true;
      }
      progressAnimator := Some(ProgressAnimation(live.progress, Clamp(target, 0.0, live.maxProgress), duration));
      threw := false;
    }

    /** `cancelAnimation` (also run when the view is detached). */
    method CancelAnimation()
      modifies this`progressAnimator
      ensures progressAnimator.None?
    {
      progressAnimator := None;
    }
  }

  // ------------------------------------------------------------ lemmas

  /** A successful `apply()` leaves every shadow equal to its live value and the flag
      clear, so a second `apply()` changes nothing. */
  lemma ApplySynchronises(s: State)
    requires !ApplySpec(s).threw
    ensures s.hasPending ==> ApplySpec(s).state.pending == ApplySpec(s).state.live && !ApplySpec(s).state.hasPending
    ensures !s.hasPending ==> ApplySpec(s).state == s
    ensures ApplySpec(ApplySpec(s).state) == ApplyResult(false, ApplySpec(s).state)
  {
  }

  /** `apply()` throws exactly when the pending maximum is negative and either the
      progress or the maximum is being changed. */
  lemma ApplyThrowsIff(s: State)
    requires s.hasPending
    ensures ApplySpec(s).threw <==>
      s.pending.maxProgress < 0.0
      && (s.pending.progress != s.live.progress || s.pending.maxProgress != s.live.maxProgress)
  {
  }

  /** When it throws, steps 1 and 2 (the two colours) are already committed, the shadows
      and the flag are untouched, and the remaining parameters are unchanged apart from
      the maximum that step 4 assigns before its clamp throws. */
  lemma ApplyThrowLeavesPartialCommit(s: State)
    requires s.hasPending && ApplySpec(s).threw
    ensures var r := ApplySpec(s).state;
      r.pending == s.pending && r.hasPending
      && r.live.bgColor == s.pending.bgColor && r.live.progressColor == s.pending.progressColor
      && r.live.strokeWidth == s.live.strokeWidth && r.live.gradientColors == s.live.gradientColors
      && r.live.useGradient == s.live.useGradient
      && (r.live.maxProgress == s.live.maxProgress || r.live.maxProgress == s.pending.maxProgress)
  {
  }

  /** Whenever a batch touches progress or the maximum and succeeds, progress ends in
      [0, max]; untouched, it keeps its value. */
  lemma ApplyKeepsProgressInRange(s: State)
    requires s.hasPending && !ApplySpec(s).threw
    ensures var l := ApplySpec(s).state.live;
      l.maxProgress == s.pending.maxProgress
      && (s.pending.progress != s.live.progress || s.pending.maxProgress != s.live.maxProgress ==>
            0.0 <= l.progress <= l.maxProgress)
      && (s.pending.progress == s.live.progress && s.pending.maxProgress == s.live.maxProgress ==>
            l.progress == s.live.progress)
  {
  }

  /** After a successful batch the gradient is on exactly when the gradient changed or
      the pending switch says so; every other parameter takes its shadow's value. */
  lemma ApplyGradientSwitch(s: State)
    requires s.hasPending && !ApplySpec(s).threw
    ensures var l := ApplySpec(s).state.live;
      (l.useGradient <==> GradientChanged(s.live, s.pending) || s.pending.useGradient)
      && l.bgColor == s.pending.bgColor && l.progressColor == s.pending.progressColor
      && l.strokeWidth == s.pending.strokeWidth && l.startAngle == s.pending.startAngle
      && l.sweepAngle == s.pending.sweepAngle && l.gradientColors == s.pending.gradientColors
      && l.gradientPositions == s.pending.gradientPositions && l.strokeCap == s.pending.strokeCap
  {
  }

  /** Chaining `setGradientColors` with new colours and then `setProgressColor` in one
      batch still ends with the gradient on: step 9 overrides the solid colour's switch. */
  lemma GradientThenSolidColorKeepsGradient(s: State, colors: seq<int>, positions: array?<real>, color: int)
    requires colors != s.live.gradientColors
    requires s.pending.maxProgress >= 0.0
    ensures var p := s.pending.(gradientColors := colors, gradientPositions := positions, useGradient := true)
                              .(progressColor := color, useGradient := false);
            var r := ApplySpec(State(s.live, p, true));
            !r.threw && r.state.live.useGradient && r.state.live.progressColor == color
  {
  }

  /** The `progress` property from a synchronised view with a non-negative maximum stores
      the value clamped to [0, max]. */
  lemma ProgressPropertyClamps(live: ArcParams, value: real)
    requires live.maxProgress >= 0.0
    ensures var r := ApplySpec(State(live, live.(progress := value), true));
      !r.threw && r.state.live == live.(progress := if value == live.progress then value else Clamp(value, 0.0, live.maxProgress))
  {
  }
}
