/** CircleLoadingView: a ring whose progress arc is driven by an animator from 0 to a
    target percentage. Its parameters go through pending shadows and `apply()`, and the
    animator is created lazily, on first use, from the live target and duration. */
module Circle {
  import opened KotlinStd
  import opened Graphics

  /** The nine parameters that have a pending shadow. */
  datatype CircleParams = CircleParams(
    circleStrokeWidth: int, progressColor: int, bgCircleColor: int,
    animationDuration: int, targetProgress: real,
    bgStartAngle: real, bgSweepAngle: real, progressStartAngle: real, progressSweepAngle: real)

  /** The `progressAnimator`: animates a value from `from` to `to` over `duration` ms. */
  datatype Animator = Animator(from: real, to: real, duration: int, running: bool)

  datatype State = State(live: CircleParams, pending: CircleParams, hasPending: bool, animator: Option<Animator>)

  /** Targets are percentages: every setter clamps them to [0, 100]. */
  predicate TargetInRange(p: CircleParams) {
    0.0 <= p.targetProgress <= 100.0
  }

  /** The animator, once created, always runs from 0 to the live target over the live
      duration: it is created from them and every change of either is forwarded to it. */
  predicate AnimatorInSync(animator: Option<Animator>, live: CircleParams) {
    animator.Some? ==>
      animator.value.from == 0.0 && animator.value.to == live.targetProgress
      && animator.value.duration == live.animationDuration
  }

  /** The lazily created animator: the existing one, or a fresh one built from the live
      target and duration. */
  function Lazy(animator: Option<Animator>, live: CircleParams): (a: Animator)
    ensures AnimatorInSync(animator, live) ==> AnimatorInSync(Some(a), live)
    ensures animator.Some? ==> a == animator.value
  {
    match animator
    case Some(a) => a
    case None => Animator(0.0, live.targetProgress, live.animationDuration, false)
  }

  /** `applyPendingChanges` in closed form: every shadow is taken; when the duration or the
      target changed the animator is touched (and so created) and re-aimed. */
  function ApplySpec(s: State): (r: State)
    ensures !s.hasPending ==> r == s
    ensures s.hasPending ==> r.live == s.pending && r.pending == s.pending && !r.hasPending
    ensures s.hasPending && AnimatorInSync(s.animator, s.live) ==> AnimatorInSync(r.animator, r.live)
  {
    if !s.hasPending then s
    else
      var l, p := s.live, s.pending;
      var l1 := l.(animationDuration := p.animationDuration);
      var a1 :=
        if p.animationDuration != l.animationDuration
        then Some(Lazy(s.animator, l1).(duration := p.animationDuration))
        else s.animator;
      var a2 :=
        if p.targetProgress != l.targetProgress
        then Some(Lazy(a1, l1).(from := 0.0, to := p.targetProgress))
        else a1;
      State(p, p, false, a2)
  }

  /** The sweep of the progress arc `onDraw` draws: none while the current progress is
      not positive, otherwise that fraction (of 100) of the progress sweep angle. */
  function DrawnSweep(currentProgress: real, progressSweepAngle: real): (r: Option<real>)
    ensures r.None? <==> currentProgress <= 0.0
    ensures r.Some? && currentProgress <= 100.0 ==> Abs(r.value) <= Abs(progressSweepAngle)
    ensures r.Some? ==> (r.value < 0.0 <==> progressSweepAngle < 0.0)
    ensures r.Some? && currentProgress == 100.0 ==> r.value == progressSweepAngle
  {
    if currentProgress <= 0.0 then None
    else
      var f := currentProgress / 100.0;
      assert f > 0.0;
      assert currentProgress <= 100.0 ==> f <= 1.0;
      assert progressSweepAngle < 0.0 ==> progressSweepAngle * f < 0.0;
      assert progressSweepAngle >= 0.0 ==> progressSweepAngle * f >= 0.0;
      assert currentProgress <= 100.0 ==> Abs(progressSweepAngle * f) == Abs(progressSweepAngle) * f <= Abs(progressSweepAngle);
      Some(progressSweepAngle * f)
  }

  /** `dp2px`: `applyDimension(COMPLEX_UNIT_DIP, dp)` truncated by `toInt()`. */
  function Dp2Px(dp: real, density: real): (px: int)
    ensures dp * density >= 0.0 ==> px as real <= dp * density < px as real + 1.0
  {
    ToInt(dp * density)
  }

  class CircleLoadingView {
    const density: real
    var live: CircleParams
    var pending: CircleParams
    var hasPendingChanges: bool
    /** The lazy `progressAnimator`; `None` until first used. */
    var animator: Option<Animator>
    /** The animated value, 0 to 100, that `onDraw` reads. */
    var currentProgress: real
    var width: int
    var height: int
    var circleRect: RectF

    function Snapshot(): State
      reads this
    {
      State(live, pending, hasPendingChanges, animator)
    }

    ghost predicate Valid()
      reads this
    {
      TargetInRange(live) && TargetInRange(pending) && AnimatorInSync(animator, live)
    }

    /** The view as constructed without XML attributes; the two colours come from
        resources and are parameters here. */
    constructor (density: real, progressColor: int, bgCircleColor: int)
      ensures Valid() && !hasPendingChanges && pending == live && animator.None?
      ensures live == CircleParams(Dp2Px(8.0, density), progressColor, bgCircleColor, 2000, 80.0,
                                   270.0, 360.0, 270.0, -360.0)
      ensures currentProgress == 0.0
    {
      this.density := density;
      live := CircleParams(Dp2Px(8.0, density), progressColor, bgCircleColor, 2000, 80.0,
                           270.0, 360.0, 270.0, -360.0);
      animator := None;
      currentProgress := 0.0;
      width, height := 0, 0;
      circleRect := RectF(0.0, 0.0, 0.0, 0.0);
      new;
      ResetPendingParams();
    }

    /** `resetPendingParams`. */
    method ResetPendingParams()
      modifies this`pending, this`hasPendingChanges
      ensures pending == live && !hasPendingChanges
    {
      pending := live;
      hasPendingChanges := false;
    }

    /** Reading `progressAnimator`: creates it on first access. */
    method TouchAnimator() returns (a: Animator)
      modifies this`animator
      ensures a == Lazy(old(animator), live) && animator == Some(a)
    {
      if animator.None? {
        animator := Some(Animator(0.0, live.targetProgress, live.animationDuration, false));
      }
      a := animator.value;
    }

    /** Steps 1-3 of `applyPendingChanges`: stroke width and the two colours. */
    method CommitStyle()
      modifies this`live
      ensures live == old(live).(circleStrokeWidth := pending.circleStrokeWidth,
                                 progressColor := pending.progressColor, bgCircleColor := pending.bgCircleColor)
    {
      if pending.circleStrokeWidth != live.circleStrokeWidth { live := live.(circleStrokeWidth := pending.circleStrokeWidth); }
      if pending.progressColor != live.progressColor { live := live.(progressColor := pending.progressColor); }
      if pending.bgCircleColor != live.bgCircleColor { live := live.(bgCircleColor := pending.bgCircleColor); }
    }

    /** Steps 4-5: the duration and the target, each forwarded to the (lazily created)
        animator. */
    method CommitAnimation()
      requires AnimatorInSync(animator, live)
      modifies this`live, this`animator
      ensures live == old(live).(animationDuration := pending.animationDuration, targetProgress := pending.targetProgress)
      ensures animator == ApplySpec(State(old(live), pending, true, old(animator))).animator
    {
      if pending.animationDuration != live.animationDuration {
        live := live.(animationDuration := pending.animationDuration);
        var a := TouchAnimator();
        animator := Some(a.(duration := live.animationDuration));
      }
      if pending.targetProgress != live.targetProgress {
        live := live.(targetProgress := pending.targetProgress);
        var a := TouchAnimator();
        animator := Some(a.(from := 0.0, to := live.targetProgress));
      }
    }

    /** Steps 6-9: the four angles. */
    method CommitAngles()
      modifies this`live
      ensures live == old(live).(bgStartAngle := pending.bgStartAngle, bgSweepAngle := pending.bgSweepAngle,
                                 progressStartAngle := pending.progressStartAngle,
                                 progressSweepAngle := pending.progressSweepAngle)
    {
      if pending.bgStartAngle != live.bgStartAngle { live := live.(bgStartAngle := pending.bgStartAngle); }
      if pending.bgSweepAngle != live.bgSweepAngle { live := live.(bgSweepAngle := pending.bgSweepAngle); }
      if pending.progressStartAngle != live.progressStartAngle { live := live.(progressStartAngle := pending.progressStartAngle); }
      if pending.progressSweepAngle != live.progressSweepAngle { live := live.(progressSweepAngle := pending.progressSweepAngle); }
    }

    /** `apply()` / `applyPendingChanges`. */
    method Apply()
      requires Valid()
      modifies this`live, this`pending, this`hasPendingChanges, this`animator
      ensures Valid()
      ensures Snapshot() == ApplySpec(old(Snapshot()))
    {
      if !hasPendingChanges {
        return;
      }
      CommitStyle();
      CommitAnimation();
      CommitAngles();
      ResetPendingParams();
    }

    // ------------------------------------------------------ chain setters

    /** `setCircleStrokeWidthDp`: converted with `dp2px`. */
    method SetCircleStrokeWidthDp(dp: real)
      modifies this`pending, this`hasPendingChanges
      ensures pending == old(pending).(circleStrokeWidth := Dp2Px(dp, density)) && hasPendingChanges
    {
      pending := pending.(circleStrokeWidth := Dp2Px(dp, density));
      hasPendingChanges := true;
    }

    method SetCircleStrokeWidthPx(px: int)
      modifies this`pending, this`hasPendingChanges
      ensures pending == old(pending).(circleStrokeWidth := px) && hasPendingChanges
    {
      pending := pending.(circleStrokeWidth := px);
      hasPendingChanges := true;
    }

    method SetProgressColor(color: int)
      modifies this`pending, this`hasPendingChanges
      ensures pending == old(pending).(progressColor := color) && hasPendingChanges
    {
      pending := pending.(progressColor := color);
      hasPendingChanges := true;
    }

    method SetBgCircleColor(color: int)
      modifies this`pending, this`hasPendingChanges
      ensures pending == old(pending).(bgCircleColor := color) && hasPendingChanges
    {
      pending := pending.(bgCircleColor := color);
      hasPendingChanges := true;
    }

    method SetAnimationDuration(duration: int)
      modifies this`pending, this`hasPendingChanges
      ensures pending == old(pending).(animationDuration := duration) && hasPendingChanges
    {
      pending := pending.(animationDuration := duration);
      hasPendingChanges := true;
    }

    /** `setTargetProgress`: clamped to [0, 100]. */
    method SetTargetProgress(progress: real)
      modifies this`pending, this`hasPendingChanges
      ensures pending == old(pending).(targetProgress := Clamp(progress, 0.0, 100.0)) && hasPendingChanges
      ensures old(Valid()) ==> Valid()
    {
      pending := pending.(targetProgress := Clamp(progress, 0.0, 100.0));
      hasPendingChanges := true;
    }

    method SetBgStartAngle(angle: real)
      modifies this`pending, this`hasPendingChanges
      ensures pending == old(pending).(bgStartAngle := angle) && hasPendingChanges
    {
      pending := pending.(bgStartAngle := angle);
      hasPendingChanges := true;
    }

    method SetBgSweepAngle(angle: real)
      modifies this`pending, this`hasPendingChanges
      ensures pending == old(pending).(bgSweepAngle := angle) && hasPendingChanges
    {
      pending := pending.(bgSweepAngle := angle);
      hasPendingChanges := true;
    }

    method SetProgressStartAngle(angle: real)
      modifies this`pending, this`hasPendingChanges
      ensures pending == old(pending).(progressStartAngle := angle) && hasPendingChanges
    {
      pending := pending.(progressStartAngle := angle);
      hasPendingChanges := true;
    }

    method SetProgressSweepAngle(angle: real)
      modifies this`pending, this`hasPendingChanges
      ensures pending == old(pending).(progressSweepAngle := angle) && hasPendingChanges
    {
      pending := pending.(progressSweepAngle := angle);
      hasPendingChanges := true;
    }

    // ------------------------------------------------------ animation

    /** `startLoadingAnimation`: cancel, re-aim from 0 to the live target over the live
        duration, and start. Shadows that were not applied are not used. */
    method StartLoadingAnimation()
      requires Valid()
      modifies this`animator
      ensures Valid()
      ensures animator == Some(Animator(0.0, live.targetProgress, live.animationDuration, true))
    {
      var a := TouchAnimator();
      animator := Some(Animator(0.0, live.targetProgress, live.animationDuration, true));
    }

    /** `stopLoadingAnimation`: cancels a running or paused animator (creating it if it
        was never used) and drops the drawn progress back to 0. */
    method StopLoadingAnimation()
      requires Valid()
      modifies this`animator, this`currentProgress
      ensures Valid()
      ensures animator.Some? && !animator.value.running
      ensures animator.value == Lazy(old(animator), live).(running := false)
      ensures currentProgress == 0.0 && DrawnSweep(currentProgress, live.progressSweepAngle).None?
    {
      var a := TouchAnimator();
      if a.running {
        animator := Some(a.(running := false));
      }
      currentProgress := 0.0;
    }

    /** `onVisibilityChanged`: any visibility other than VISIBLE stops the animation. */
    method OnVisibilityChanged(visible: bool)
      requires Valid()
      modifies this`animator, this`currentProgress
      ensures Valid()
      ensures !visible ==> currentProgress == 0.0 && animator.Some? && !animator.value.running
      ensures visible ==> animator == old(animator) && currentProgress == old(currentProgress)
    {
      if !visible {
        StopLoadingAnimation();
      }
    }

    /** `onDetachedFromWindow`: stops the animation. */
    method OnDetachedFromWindow()
      requires Valid()
      modifies this`animator, this`currentProgress
      ensures Valid()
      ensures currentProgress == 0.0 && animator.Some? && !animator.value.running
    {
      StopLoadingAnimation();
    }

    /** `onSizeChanged` and `updateCircleRect`: the ring sits half a stroke inside the view. */
    method OnSizeChanged(w: int, h: int)
      modifies this`width, this`height, this`circleRect
      ensures width == w && height == h
      ensures circleRect == StrokeInsetRect(w, h, live.circleStrokeWidth as real)
    {
      width, height := w, h;
      var padding := live.circleStrokeWidth as real / 2.0;
      circleRect := RectF(padding, padding, width as real - padding, height as real - padding);
    }
  }

  // ------------------------------------------------------------ lemmas

  /** A second `apply()` right after the first changes nothing. */
  lemma ApplyIdempotent(s: State)
    ensures ApplySpec(ApplySpec(s)) == ApplySpec(s)
  {
  }

  /** A batch that changes neither the duration nor the target does not create the
      animator; one that changes either leaves an animator aimed at the new target. */
  lemma ApplyAnimatorCreation(s: State)
    requires s.hasPending && AnimatorInSync(s.animator, s.live)
    ensures (s.animator.None? && s.pending.animationDuration == s.live.animationDuration
             && s.pending.targetProgress == s.live.targetProgress) ==> ApplySpec(s).animator.None?
    ensures (s.pending.animationDuration != s.live.animationDuration || s.pending.targetProgress != s.live.targetProgress)
            ==> ApplySpec(s).animator.Some? && ApplySpec(s).animator.value.to == s.pending.targetProgress
                && ApplySpec(s).animator.value.duration == s.pending.animationDuration
    ensures s.animator.Some? ==> ApplySpec(s).animator.value.running == s.animator.value.running
    ensures s.animator.Some? ==> ApplySpec(s).animator.Some? && ApplySpec(s).animator.value.from == 0.0
  {
  }

  /** Whatever the shadows hold, a target set through `setTargetProgress` and applied is a
      percentage, and the animation it starts ends at it. */
  lemma AppliedTargetIsPercentage(s: State, progress: real)
    ensures var r := ApplySpec(s.(pending := s.pending.(targetProgress := Clamp(progress, 0.0, 100.0)), hasPending := true));
      TargetInRange(r.live)
      && (0.0 <= progress <= 100.0 ==> r.live.targetProgress == progress)
  {
  }
}
