# AndroidViewUtils in Dafny

A Dafny model of the logic inside AndroidViewUtils, a Kotlin library of Android custom
views and UI helpers. Everything that draws, animates, loads or writes is left to the
framework. What remains is modelled and proved here.

- **The four custom views.** These are DiamondProgressBar, ArcProgressBar,
  CircleLoadingView and DashedLineView. Each keeps a live value and a pending shadow for
  every parameter, plus a `hasPendingChanges` flag. The chained setters write only the
  shadows, and some of them clamp. `apply()` commits the shadows that differ, in a fixed
  order, through the clamping property setters, then resynchronises the shadows.
  - Each view is a Dafny class with its live and pending fields. Every method is proved
    against a pure function of the view's state (`ApplySpec`, `SetProgressSpec`, and so on).
  - Lemmas about those functions cover the rest: apply is a no-op without pending
    changes, shadows mirror live values afterwards, clamps hold, and the commit order has
    visible effects.
  - The pure helpers are modelled too: the diamond size fallback, the measure rule, the
    tilt target, the drawing rect inset, the progress sweep, the dash interval and the
    dashed path's endpoints.
- **Edge-to-edge support.** This covers the `EdgeToEdgeConfig` builder and its presets,
  the padding and margin inset strategies, and the per-view inset listeners.
  - The strategies capture the original padding or margin once. A repeated dispatch is
    therefore stable and does not accumulate.
- **Text transforms.**
  - Highlighting the first case-insensitive occurrence of a keyword.
  - Markwon's block-image plugin, which puts every image span on its own line.
  - The match-parent image size rule.
- **The image viewer's configuration.**
  - The one-time `init` and the `with` check.
  - The Builder and `show`, with its empty-list error, start-position clamp and
    launch-option precedence.
  - The "n / total" page indicator.
  - The scale-and-fade page transformer.
- **Pure mapping helpers.**
  - Image-load configuration to Glide transformations and request options.
  - The context-validity walk.
  - Compress format to MIME type, extension and WEBP variant by API level.
  - The saved file name.

Modelling conventions:

- Kotlin `Float` is `real`. `Float.toInt()` is truncation toward zero. `coerceIn(lo, hi)`
  with `lo > hi` is the exception Kotlin throws, modelled as an error result.
- Screen density, the API level (`Build.VERSION.SDK_INT`) and the clock-generated file
  name are parameters.
- Where the source compares arrays by reference (the arc bar's gradient positions), the
  model uses `array?`. Where it compares by content (gradient colours), the model uses
  `seq`. The colour arrays are still shared in the source, and "## Left out" says what the
  `seq` model loses.

Source paths below are relative to the repository root.

## Model

| member | source | states |
|---|---|---|
| Diamond.TiltTarget | AndroidViewUtils/src/main/java/com/azheng/viewutils/DiamondProgressBar.kt:442-458 | the tilt target is +angle when progress grew, -angle when it shrank and the current angle when it did not move; it stays in [-90, 90] when the angle and current tilt do |
| Diamond.ManualTilt | AndroidViewUtils/src/main/java/com/azheng/viewutils/DiamondProgressBar.kt:490-498 | a manual tilt target is clamped to [-90, 90] and taken exactly when in range; without animation (or duration 0) the tilt jumps to it, otherwise an animation from the current angle starts |
| Diamond.SetProgressSpec | AndroidViewUtils/src/main/java/com/azheng/viewutils/DiamondProgressBar.kt:21-32 | the `progress` setter succeeds exactly when the maximum is not negative, lands in [0, max], keeps an in-range value exactly, and leaves the tilt alone when tilt is off or the value did not move |
| Diamond.ActualDiamondSize | AndroidViewUtils/src/main/java/com/azheng/viewutils/DiamondProgressBar.kt:398-421 | one diamond dimension: the explicit size when positive, else the drawable's positive intrinsic size, else 32 dp; always positive for a positive density |
| Diamond.Measure | AndroidViewUtils/src/main/java/com/azheng/viewutils/DiamondProgressBar.kt:1347-1370 | the width is the offered size (exactly or at most) or 200 dp; the height is the exact size, the smaller of the desired and offered height, or the desired height |
| Diamond.ArcModeAddsArcHeight | AndroidViewUtils/src/main/java/com/azheng/viewutils/DiamondProgressBar.kt:1347-1351 | switching arc mode on never lowers the wanted height, whichever way the arc bends |
| Diamond.DiamondProgressBar.constructor | AndroidViewUtils/src/main/java/com/azheng/viewutils/DiamondProgressBar.kt:21-224 | without XML attributes: progress 0 of 100, bar 8 dp, arc off at 30 dp with control 0.5, quadratic, round caps, 4 dp radii, track #E0E0E0, three gradient colours, no drawable, tilt off at 15 degrees, smooth, 150 ms; shadows equal to the live values |
| Diamond.DiamondProgressBar.InitPendingParams | AndroidViewUtils/src/main/java/com/azheng/viewutils/DiamondProgressBar.kt:517-550 | every shadow takes its live value |
| Diamond.DiamondProgressBar.ResetPendingParams | AndroidViewUtils/src/main/java/com/azheng/viewutils/DiamondProgressBar.kt:555-558 | the flag clears and every shadow takes its live value |
| Diamond.DiamondProgressBar.UpdateTiltAngle | AndroidViewUtils/src/main/java/com/azheng/viewutils/DiamondProgressBar.kt:442-485 | the tilt moves toward `TiltTarget` of the progress change: at once without smoothing, through a new animation from the current angle with it |
| Diamond.DiamondProgressBar.SetTiltAngle | AndroidViewUtils/src/main/java/com/azheng/viewutils/DiamondProgressBar.kt:490-498 | the tilt follows `ManualTilt` for the live duration |
| Diamond.DiamondProgressBar.ResetTilt | AndroidViewUtils/src/main/java/com/azheng/viewutils/DiamondProgressBar.kt:503-505 | the new tilt is ManualTilt of the old one towards 0: without animation (or with duration 0) the angle is 0 at once and any running tilt animator is kept, as the source does not cancel it; with animation the angle stays where it was and an animation from it to 0 starts |
| Diamond.DiamondProgressBar.SetProgress | AndroidViewUtils/src/main/java/com/azheng/viewutils/DiamondProgressBar.kt:21-32 | the `progress` setter (and `setProgress`) throws exactly when the live maximum is negative and then changes nothing; otherwise it stores the clamped value and updates the tilt as `SetProgressSpec` says; shadows are untouched |
| Diamond.DiamondProgressBar.SetDiamondTiltEnabled | AndroidViewUtils/src/main/java/com/azheng/viewutils/DiamondProgressBar.kt:197-205 | only the enabled flag changes; disabling puts the diamond upright and cancels the tilt animation |
| Diamond.DiamondProgressBar.DiamondSize | AndroidViewUtils/src/main/java/com/azheng/viewutils/DiamondProgressBar.kt:175-180 | the diamond size is the larger of the effective width and height, positive for a positive density |
| Diamond.DiamondProgressBar.SetMaxProgress | AndroidViewUtils/src/main/java/com/azheng/viewutils/DiamondProgressBar.kt:34-38 | the maximum is stored as given; progress is not re-clamped; the shadows are left as they were |
| Diamond.DiamondProgressBar.SetBarHeight | AndroidViewUtils/src/main/java/com/azheng/viewutils/DiamondProgressBar.kt:40-46 | only the bar height changes; the shadows are left as they were |
| Diamond.DiamondProgressBar.SetArcMode | AndroidViewUtils/src/main/java/com/azheng/viewutils/DiamondProgressBar.kt:49-53 | only the arc-mode flag changes; the shadows are left as they were |
| Diamond.DiamondProgressBar.SetArcHeight | AndroidViewUtils/src/main/java/com/azheng/viewutils/DiamondProgressBar.kt:55-59 | only the arc height changes; the shadows are left as they were |
| Diamond.DiamondProgressBar.SetArcControlPosition | AndroidViewUtils/src/main/java/com/azheng/viewutils/DiamondProgressBar.kt:61-65 | the control position is clamped to [0.1, 0.9]; nothing else changes; the shadows are left as they were |
| Diamond.DiamondProgressBar.SetArcType | AndroidViewUtils/src/main/java/com/azheng/viewutils/DiamondProgressBar.kt:73-77 | only the arc type changes; the shadows are left as they were |
| Diamond.DiamondProgressBar.SetArcControlHeight1 | AndroidViewUtils/src/main/java/com/azheng/viewutils/DiamondProgressBar.kt:79-83 | only the first control height changes; the shadows are left as they were |
| Diamond.DiamondProgressBar.SetArcControlHeight2 | AndroidViewUtils/src/main/java/com/azheng/viewutils/DiamondProgressBar.kt:85-89 | only the second control height changes; the shadows are left as they were |
| Diamond.DiamondProgressBar.SetStrokeCap | AndroidViewUtils/src/main/java/com/azheng/viewutils/DiamondProgressBar.kt:92-98 | only the cap changes; the shadows are left as they were |
| Diamond.DiamondProgressBar.SetTopLeftRadius | AndroidViewUtils/src/main/java/com/azheng/viewutils/DiamondProgressBar.kt:1079-1084 | only the top-left radius changes; the shadows are left as they were |
| Diamond.DiamondProgressBar.SetTopRightRadius | AndroidViewUtils/src/main/java/com/azheng/viewutils/DiamondProgressBar.kt:1086-1091 | only the top-right radius changes; the shadows are left as they were |
| Diamond.DiamondProgressBar.SetBottomLeftRadius | AndroidViewUtils/src/main/java/com/azheng/viewutils/DiamondProgressBar.kt:1093-1098 | only the bottom-left radius changes; the shadows are left as they were |
| Diamond.DiamondProgressBar.SetBottomRightRadius | AndroidViewUtils/src/main/java/com/azheng/viewutils/DiamondProgressBar.kt:1100-1105 | only the bottom-right radius changes; the shadows are left as they were |
| Diamond.DiamondProgressBar.SetProgressStartRadius | AndroidViewUtils/src/main/java/com/azheng/viewutils/DiamondProgressBar.kt:1107-1111 | only the progress start radius changes; the shadows are left as they were |
| Diamond.DiamondProgressBar.SetProgressEndRadius | AndroidViewUtils/src/main/java/com/azheng/viewutils/DiamondProgressBar.kt:1113-1117 | only the progress end radius changes; the shadows are left as they were |
| Diamond.DiamondProgressBar.SetCapsuleShape | AndroidViewUtils/src/main/java/com/azheng/viewutils/DiamondProgressBar.kt:119-123 | only the capsule flag changes; the shadows are left as they were |
| Diamond.DiamondProgressBar.SetTrackColor | AndroidViewUtils/src/main/java/com/azheng/viewutils/DiamondProgressBar.kt:126-132 | only the track colour changes; the shadows are left as they were |
| Diamond.DiamondProgressBar.SetDiamondDrawable | AndroidViewUtils/src/main/java/com/azheng/viewutils/DiamondProgressBar.kt:1257-1262 | only the drawable changes; the shadows are left as they were |
| Diamond.DiamondProgressBar.SetDiamondWidth | AndroidViewUtils/src/main/java/com/azheng/viewutils/DiamondProgressBar.kt:156-161 | the width becomes max(value, 0); nothing else changes; the shadows are left as they were |
| Diamond.DiamondProgressBar.SetDiamondHeight | AndroidViewUtils/src/main/java/com/azheng/viewutils/DiamondProgressBar.kt:164-169 | the height becomes max(value, 0); nothing else changes; the shadows are left as they were |
| Diamond.DiamondProgressBar.SetDiamondOffsetY | AndroidViewUtils/src/main/java/com/azheng/viewutils/DiamondProgressBar.kt:182-186 | only the vertical offset changes; the shadows are left as they were |
| Diamond.DiamondProgressBar.SetDiamondRotateWithPath | AndroidViewUtils/src/main/java/com/azheng/viewutils/DiamondProgressBar.kt:188-192 | only the rotate-with-path flag changes; the shadows are left as they were |
| Diamond.DiamondProgressBar.SetDiamondTiltAngle | AndroidViewUtils/src/main/java/com/azheng/viewutils/DiamondProgressBar.kt:208-212 | the tilt angle is clamped to [-90, 90]; nothing else changes; the shadows are left as they were |
| Diamond.DiamondProgressBar.SetDiamondTiltSmooth | AndroidViewUtils/src/main/java/com/azheng/viewutils/DiamondProgressBar.kt:215-218 | only the smoothing flag changes; the shadows are left as they were |
| Diamond.DiamondProgressBar.SetDiamondTiltDuration | AndroidViewUtils/src/main/java/com/azheng/viewutils/DiamondProgressBar.kt:221-224 | the tilt duration is clamped to [0, 1000] ms; nothing else changes; the shadows are left as they were |
| Diamond.DiamondProgressBar.SetDiamondTiltParams | AndroidViewUtils/src/main/java/com/azheng/viewutils/DiamondProgressBar.kt:1188-1198 | tilt is switched on with the clamped angle, the smoothing flag and the clamped duration; the shadows are left as they were |
| Diamond.DiamondProgressBar.SetArcParams | AndroidViewUtils/src/main/java/com/azheng/viewutils/DiamondProgressBar.kt:1239-1249 | arc mode is switched on with the height, the clamped control position and the type; the shadows are left as they were |
| Diamond.DiamondProgressBar.SetCubicControlHeights | AndroidViewUtils/src/main/java/com/azheng/viewutils/DiamondProgressBar.kt:1251-1255 | only the two control heights change; the shadows are left as they were |
| Diamond.DiamondProgressBar.SetBarCornerRadius | AndroidViewUtils/src/main/java/com/azheng/viewutils/DiamondProgressBar.kt:101-109 | the bar radius and all four corner radii take the value; the shadows are left as they were |
| Diamond.DiamondProgressBar.SetCornerRadius | AndroidViewUtils/src/main/java/com/azheng/viewutils/DiamondProgressBar.kt:1215-1220 | the bar radius, the four corners and both progress ends take the value; the shadows are left as they were |
| Diamond.DiamondProgressBar.SetCornerRadii | AndroidViewUtils/src/main/java/com/azheng/viewutils/DiamondProgressBar.kt:1222-1230 | only the four corner radii change, each to its own value; the shadows are left as they were |
| Diamond.DiamondProgressBar.SetProgressCornerRadius | AndroidViewUtils/src/main/java/com/azheng/viewutils/DiamondProgressBar.kt:1232-1237 | only the two progress-end radii change; the shadows are left as they were |
| Diamond.DiamondProgressBar.SetGradientColors | AndroidViewUtils/src/main/java/com/azheng/viewutils/DiamondProgressBar.kt:1129-1133 | only the gradient colours and positions change; the shadows are left as they were |
| Diamond.DiamondProgressBar.SetDiamondSize | AndroidViewUtils/src/main/java/com/azheng/viewutils/DiamondProgressBar.kt:175-180 | both dimensions become max(size, 0); the shadows are left as they were |
| Diamond.DiamondProgressBar.SetDiamondDimensions | AndroidViewUtils/src/main/java/com/azheng/viewutils/DiamondProgressBar.kt:1150-1154 | each dimension becomes max(value, 0); the shadows are left as they were |
| Diamond.DiamondProgressBar.SetProgressPending | AndroidViewUtils/src/main/java/com/azheng/viewutils/DiamondProgressBar.kt:750-754 | throws exactly when the pending maximum is negative, changing nothing; otherwise the progress shadow takes the value clamped against the pending maximum; a change is pending and the live values are untouched |
| Diamond.DiamondProgressBar.SetMaxProgressPending | AndroidViewUtils/src/main/java/com/azheng/viewutils/DiamondProgressBar.kt:756-760 | the maximum shadow takes the value as given, without re-clamping the progress shadow; a change is pending and the live values are untouched |
| Diamond.DiamondProgressBar.SetBarHeightPending | AndroidViewUtils/src/main/java/com/azheng/viewutils/DiamondProgressBar.kt:762-766 | only the bar-height shadow changes; a change is pending and the live values are untouched |
| Diamond.DiamondProgressBar.SetArcModePending | AndroidViewUtils/src/main/java/com/azheng/viewutils/DiamondProgressBar.kt:769-773 | only the arc-mode shadow changes; a change is pending and the live values are untouched |
| Diamond.DiamondProgressBar.SetArcHeightPending | AndroidViewUtils/src/main/java/com/azheng/viewutils/DiamondProgressBar.kt:775-779 | only the arc-height shadow changes; a change is pending and the live values are untouched |
| Diamond.DiamondProgressBar.SetArcControlPositionPending | AndroidViewUtils/src/main/java/com/azheng/viewutils/DiamondProgressBar.kt:781-785 | the control-position shadow is clamped to [0.1, 0.9]; a change is pending and the live values are untouched |
| Diamond.DiamondProgressBar.SetArcTypePending | AndroidViewUtils/src/main/java/com/azheng/viewutils/DiamondProgressBar.kt:787-791 | only the arc-type shadow changes; a change is pending and the live values are untouched |
| Diamond.DiamondProgressBar.SetArcControlHeight1Pending | AndroidViewUtils/src/main/java/com/azheng/viewutils/DiamondProgressBar.kt:793-797 | only the first control-height shadow changes; a change is pending and the live values are untouched |
| Diamond.DiamondProgressBar.SetArcControlHeight2Pending | AndroidViewUtils/src/main/java/com/azheng/viewutils/DiamondProgressBar.kt:799-803 | only the second control-height shadow changes; a change is pending and the live values are untouched |
| Diamond.DiamondProgressBar.SetStrokeCapPending | AndroidViewUtils/src/main/java/com/azheng/viewutils/DiamondProgressBar.kt:806-810 | only the cap shadow changes; a change is pending and the live values are untouched |
| Diamond.DiamondProgressBar.SetTopLeftRadiusPending | AndroidViewUtils/src/main/java/com/azheng/viewutils/DiamondProgressBar.kt:822-826 | only the top-left shadow changes; a change is pending and the live values are untouched |
| Diamond.DiamondProgressBar.SetTopRightRadiusPending | AndroidViewUtils/src/main/java/com/azheng/viewutils/DiamondProgressBar.kt:828-832 | only the top-right shadow changes; a change is pending and the live values are untouched |
| Diamond.DiamondProgressBar.SetBottomLeftRadiusPending | AndroidViewUtils/src/main/java/com/azheng/viewutils/DiamondProgressBar.kt:834-838 | only the bottom-left shadow changes; a change is pending and the live values are untouched |
| Diamond.DiamondProgressBar.SetBottomRightRadiusPending | AndroidViewUtils/src/main/java/com/azheng/viewutils/DiamondProgressBar.kt:840-844 | only the bottom-right shadow changes; a change is pending and the live values are untouched |
| Diamond.DiamondProgressBar.SetProgressStartRadiusPending | AndroidViewUtils/src/main/java/com/azheng/viewutils/DiamondProgressBar.kt:846-850 | only the progress start-radius shadow changes; a change is pending and the live values are untouched |
| Diamond.DiamondProgressBar.SetProgressEndRadiusPending | AndroidViewUtils/src/main/java/com/azheng/viewutils/DiamondProgressBar.kt:852-856 | only the progress end-radius shadow changes; a change is pending and the live values are untouched |
| Diamond.DiamondProgressBar.SetCapsuleShapePending | AndroidViewUtils/src/main/java/com/azheng/viewutils/DiamondProgressBar.kt:858-862 | only the capsule shadow changes; a change is pending and the live values are untouched |
| Diamond.DiamondProgressBar.SetTrackColorPending | AndroidViewUtils/src/main/java/com/azheng/viewutils/DiamondProgressBar.kt:865-869 | only the track-colour shadow changes; a change is pending and the live values are untouched |
| Diamond.DiamondProgressBar.SetDiamondDrawablePending | AndroidViewUtils/src/main/java/com/azheng/viewutils/DiamondProgressBar.kt:917-921 | only the drawable shadow changes; a change is pending and the live values are untouched |
| Diamond.DiamondProgressBar.SetDiamondWidthPending | AndroidViewUtils/src/main/java/com/azheng/viewutils/DiamondProgressBar.kt:879-883 | the width shadow becomes max(value, 0); a change is pending and the live values are untouched |
| Diamond.DiamondProgressBar.SetDiamondHeightPending | AndroidViewUtils/src/main/java/com/azheng/viewutils/DiamondProgressBar.kt:885-889 | the height shadow becomes max(value, 0); a change is pending and the live values are untouched |
| Diamond.DiamondProgressBar.SetDiamondOffsetYPending | AndroidViewUtils/src/main/java/com/azheng/viewutils/DiamondProgressBar.kt:905-909 | only the offset shadow changes; a change is pending and the live values are untouched |
| Diamond.DiamondProgressBar.SetDiamondRotateWithPathPending | AndroidViewUtils/src/main/java/com/azheng/viewutils/DiamondProgressBar.kt:911-915 | only the rotate-with-path shadow changes; a change is pending and the live values are untouched |
| Diamond.DiamondProgressBar.SetDiamondTiltAnglePending | AndroidViewUtils/src/main/java/com/azheng/viewutils/DiamondProgressBar.kt:936-940 | the tilt-angle shadow is clamped to [-90, 90]; a change is pending and the live values are untouched |
| Diamond.DiamondProgressBar.SetDiamondTiltSmoothPending | AndroidViewUtils/src/main/java/com/azheng/viewutils/DiamondProgressBar.kt:942-946 | only the smoothing shadow changes; a change is pending and the live values are untouched |
| Diamond.DiamondProgressBar.SetDiamondTiltEnabledPending | AndroidViewUtils/src/main/java/com/azheng/viewutils/DiamondProgressBar.kt:930-934 | only the tilt-enabled shadow changes; a change is pending and the live values are untouched |
| Diamond.DiamondProgressBar.SetDiamondTiltDurationPending | AndroidViewUtils/src/main/java/com/azheng/viewutils/DiamondProgressBar.kt:948-952 | the duration shadow is clamped to [0, 1000]; a change is pending and the live values are untouched |
| Diamond.DiamondProgressBar.SetDiamondTiltParamsPending | AndroidViewUtils/src/main/java/com/azheng/viewutils/DiamondProgressBar.kt:955-966 | the tilt shadows become enabled, the clamped angle, the smoothing flag and the clamped duration; a change is pending and the live values are untouched |
| Diamond.DiamondProgressBar.SetArcParamsPending | AndroidViewUtils/src/main/java/com/azheng/viewutils/DiamondProgressBar.kt:1002-1013 | the arc shadows become arc mode on, the height, the clamped control position and the type; a change is pending and the live values are untouched |
| Diamond.DiamondProgressBar.SetCubicControlHeightsPending | AndroidViewUtils/src/main/java/com/azheng/viewutils/DiamondProgressBar.kt:1015-1020 | only the two control-height shadows change; a change is pending and the live values are untouched |
| Diamond.DiamondProgressBar.SetBarCornerRadiusPending | AndroidViewUtils/src/main/java/com/azheng/viewutils/DiamondProgressBar.kt:812-820 | the bar-radius shadow and the four corner shadows take the value; a change is pending and the live values are untouched |
| Diamond.DiamondProgressBar.SetCornerRadiusPending | AndroidViewUtils/src/main/java/com/azheng/viewutils/DiamondProgressBar.kt:969-979 | the bar, corner and progress-end radius shadows all take the value; a change is pending and the live values are untouched |
| Diamond.DiamondProgressBar.SetCornerRadiiPending | AndroidViewUtils/src/main/java/com/azheng/viewutils/DiamondProgressBar.kt:981-993 | only the four corner shadows change, each to its own value; a change is pending and the live values are untouched |
| Diamond.DiamondProgressBar.SetProgressCornerRadiusPending | AndroidViewUtils/src/main/java/com/azheng/viewutils/DiamondProgressBar.kt:995-1000 | only the two progress-end radius shadows change; a change is pending and the live values are untouched |
| Diamond.DiamondProgressBar.SetGradientColorsPending | AndroidViewUtils/src/main/java/com/azheng/viewutils/DiamondProgressBar.kt:871-876 | only the gradient colour and position shadows change; a change is pending and the live values are untouched |
| Diamond.DiamondProgressBar.SetDiamondSizePending | AndroidViewUtils/src/main/java/com/azheng/viewutils/DiamondProgressBar.kt:891-896 | both dimension shadows become max(size, 0); a change is pending and the live values are untouched |
| Diamond.DiamondProgressBar.SetDiamondDimensionsPending | AndroidViewUtils/src/main/java/com/azheng/viewutils/DiamondProgressBar.kt:898-903 | each dimension shadow becomes max(value, 0); a change is pending and the live values are untouched |
| Diamond.DiamondProgressBar.CommitArc | AndroidViewUtils/src/main/java/com/azheng/viewutils/DiamondProgressBar.kt:587-613 | every arc parameter takes its shadow through its setter; nothing else changes |
| Diamond.DiamondProgressBar.CommitShape | AndroidViewUtils/src/main/java/com/azheng/viewutils/DiamondProgressBar.kt:615-648 | the whole shape group (cap, bar radius, four corners, both progress ends, capsule) takes its shadows, although the bar-radius setter first fans out to the corners |
| Diamond.DiamondProgressBar.CommitColors | AndroidViewUtils/src/main/java/com/azheng/viewutils/DiamondProgressBar.kt:650-664 | the track colour and the gradient (compared by content) take their shadows |
| Diamond.DiamondProgressBar.CommitIcon | AndroidViewUtils/src/main/java/com/azheng/viewutils/DiamondProgressBar.kt:666-691 | every diamond-icon parameter takes its shadow |
| Diamond.DiamondProgressBar.CommitTilt | AndroidViewUtils/src/main/java/com/azheng/viewutils/DiamondProgressBar.kt:693-708 | every tilt parameter takes its shadow, and switching tilt off puts the diamond upright and cancels its animation |
| Diamond.DiamondProgressBar.Apply | AndroidViewUtils/src/main/java/com/azheng/viewutils/DiamondProgressBar.kt:742-745 | `apply()` ends as `ApplySpec` says: it throws exactly when the spec says so, and then nothing has changed; the clamps are kept |
| Diamond.ApplyWithoutPendingIsNoOp | AndroidViewUtils/src/main/java/com/azheng/viewutils/DiamondProgressBar.kt:563-564 | `apply()` with nothing pending changes nothing |
| Diamond.ApplySynchronises | AndroidViewUtils/src/main/java/com/azheng/viewutils/DiamondProgressBar.kt:563-737 | after a successful `apply()` every shadow equals its live value, the flag is clear, the clamps still hold and a second `apply()` changes nothing |
| Diamond.ApplyThrowsIff | AndroidViewUtils/src/main/java/com/azheng/viewutils/DiamondProgressBar.kt:573-575 | `apply()` throws exactly when the progress shadow differs and the pending or the live maximum is negative |
| Diamond.ApplyCommitsShadows | AndroidViewUtils/src/main/java/com/azheng/viewutils/DiamondProgressBar.kt:563-737 | every parameter takes its shadow except progress, which goes through the live-maximum clamp of its setter before the maximum is committed, so a changed progress lands in [0, min(live max, pending max)] |
| Diamond.RaisingMaxInSameBatchCapsProgress | AndroidViewUtils/src/main/java/com/azheng/viewutils/DiamondProgressBar.kt:573-579 | a batch that raises the maximum and sets progress beyond the old maximum ends with progress at the old maximum, below the requested value |
| Diamond.StaleShadowOverridesImmediateProgress | AndroidViewUtils/src/main/java/com/azheng/viewutils/DiamondProgressBar.kt:1024-1027 | a progress set through the immediate setter is overwritten by the stale progress shadow at the next `apply()` |
| Diamond.ApplyTiltFollowsDirection | AndroidViewUtils/src/main/java/com/azheng/viewutils/DiamondProgressBar.kt:573-575 | with tilt enabled, a batch that raises progress aims the tilt at +angle and one that lowers it at -angle |
| Diamond.ApplyTiltImmediateOrAnimated | AndroidViewUtils/src/main/java/com/azheng/viewutils/DiamondProgressBar.kt:442-485 | without smoothing the tilt lands on +angle or -angle at once; with smoothing an animation from the current angle to the target starts |
| Diamond.ApplyDisabledTilt | AndroidViewUtils/src/main/java/com/azheng/viewutils/DiamondProgressBar.kt:694-697 | a batch that disables tilt leaves the diamond upright with no tilt animation; one where tilt stays off leaves the tilt as it was |
| Diamond.TiltTargetAntisymmetric | AndroidViewUtils/src/main/java/com/azheng/viewutils/DiamondProgressBar.kt:442-458 | reversing the direction of a progress change mirrors the tilt target |
| ArcBar.CommitProgressSpec | AndroidViewUtils/src/main/java/com/azheng/viewutils/ArcProgressBar.kt:157-169 | steps 3 and 4 change only progress and the maximum: progress is clamped against the pending maximum, then the maximum is assigned and progress re-clamped against it; a negative maximum throws, after the maximum has been assigned when step 4 throws |
| ArcBar.ApplySpec | AndroidViewUtils/src/main/java/com/azheng/viewutils/ArcProgressBar.kt:130-233 | with nothing pending, `apply()` neither throws nor changes anything |
| ArcBar.ProgressPercent | AndroidViewUtils/src/main/java/com/azheng/viewutils/ArcProgressBar.kt:496 | the percentage is undefined exactly when the maximum is 0; for progress in [0, max] it lies in [0, 100], and it is 100 at the maximum |
| ArcBar.ProgressSweep | AndroidViewUtils/src/main/java/com/azheng/viewutils/ArcProgressBar.kt:277-297 | the progress arc's sweep is undefined exactly when the maximum is 0; it is 0 at no progress, the full sweep at the maximum, and within [0, sweep] in between |
| ArcBar.MeasureSquare | AndroidViewUtils/src/main/java/com/azheng/viewutils/ArcProgressBar.kt:265-269 | the view is measured square, on the smaller of the two measured sides |
| ArcBar.ArcProgressBar.constructor | AndroidViewUtils/src/main/java/com/azheng/viewutils/ArcProgressBar.kt:54-104 | without XML attributes: background #F0F0F0, progress colour #FFC107, progress 0 of 100, stroke 40, from 180 sweeping 180, gradient on with two #EBB400 stops at 0 and 1, round caps; shadows equal to the live values |
| ArcBar.ArcProgressBar.ResetPendingParams | AndroidViewUtils/src/main/java/com/azheng/viewutils/ArcProgressBar.kt:112-125 | every shadow takes its live value and the pending flag clears |
| ArcBar.ArcProgressBar.CommitProgress | AndroidViewUtils/src/main/java/com/azheng/viewutils/ArcProgressBar.kt:157-169 | steps 3 and 4 behave as `CommitProgressSpec` |
| ArcBar.ArcProgressBar.CommitRest | AndroidViewUtils/src/main/java/com/azheng/viewutils/ArcProgressBar.kt:171-216 | steps 5 to 10 take every remaining shadow, and step 9 switches the gradient on when the colours differ in content or the positions array is another one |
| ArcBar.ArcProgressBar.Apply | AndroidViewUtils/src/main/java/com/azheng/viewutils/ArcProgressBar.kt:457-460 | `apply()` ends as `ApplySpec` says, including the partial commit left when a clamp throws |
| ArcBar.ArcProgressBar.SetBgColor | AndroidViewUtils/src/main/java/com/azheng/viewutils/ArcProgressBar.kt:361-365 | only the background shadow changes, and a change is pending |
| ArcBar.ArcProgressBar.SetProgressColor | AndroidViewUtils/src/main/java/com/azheng/viewutils/ArcProgressBar.kt:370-375 | the progress-colour shadow takes the colour and the pending gradient switches off |
| ArcBar.ArcProgressBar.SetProgress | AndroidViewUtils/src/main/java/com/azheng/viewutils/ArcProgressBar.kt:380-384 | the progress shadow stores the value unclamped |
| ArcBar.ArcProgressBar.SetMaxProgress | AndroidViewUtils/src/main/java/com/azheng/viewutils/ArcProgressBar.kt:389-393 | only the maximum shadow changes |
| ArcBar.ArcProgressBar.SetStrokeWidth | AndroidViewUtils/src/main/java/com/azheng/viewutils/ArcProgressBar.kt:398-402 | only the stroke-width shadow changes |
| ArcBar.ArcProgressBar.SetStartAngle | AndroidViewUtils/src/main/java/com/azheng/viewutils/ArcProgressBar.kt:407-411 | only the start-angle shadow changes |
| ArcBar.ArcProgressBar.SetSweepAngle | AndroidViewUtils/src/main/java/com/azheng/viewutils/ArcProgressBar.kt:416-420 | only the sweep-angle shadow changes |
| ArcBar.ArcProgressBar.SetUseGradient | AndroidViewUtils/src/main/java/com/azheng/viewutils/ArcProgressBar.kt:425-429 | only the gradient switch shadow changes |
| ArcBar.ArcProgressBar.SetGradientColors | AndroidViewUtils/src/main/java/com/azheng/viewutils/ArcProgressBar.kt:436-442 | the colour and position shadows take the arrays as given and the pending gradient switches on |
| ArcBar.ArcProgressBar.SetStrokeCap | AndroidViewUtils/src/main/java/com/azheng/viewutils/ArcProgressBar.kt:448-452 | only the cap shadow changes |
| ArcBar.ArcProgressBar.RestoreGradient | AndroidViewUtils/src/main/java/com/azheng/viewutils/ArcProgressBar.kt:486-490 | only the gradient switch shadow changes, to on |
| ArcBar.ArcProgressBar.SetProgressAndApply | AndroidViewUtils/src/main/java/com/azheng/viewutils/ArcProgressBar.kt:301-306 | the `progress` property is the chain setter followed by `apply()` |
| ArcBar.ArcProgressBar.SetMaxProgressAndApply | AndroidViewUtils/src/main/java/com/azheng/viewutils/ArcProgressBar.kt:309-313 | the `maxProgress` property is the chain setter followed by `apply()` |
| ArcBar.ArcProgressBar.SetProgressColorAndApply | AndroidViewUtils/src/main/java/com/azheng/viewutils/ArcProgressBar.kt:323-327 | the `progressColor` property sets a solid colour (gradient off) and applies it |
| ArcBar.ArcProgressBar.SetUseGradientAndApply | AndroidViewUtils/src/main/java/com/azheng/viewutils/ArcProgressBar.kt:351-355 | the `useGradient` property is the chain setter followed by `apply()` |
| ArcBar.ArcProgressBar.GetProgressPercent | AndroidViewUtils/src/main/java/com/azheng/viewutils/ArcProgressBar.kt:496 | returns the live progress as the percentage `ProgressPercent` describes |
| ArcBar.ArcProgressBar.UpdateRectF | AndroidViewUtils/src/main/java/com/azheng/viewutils/ArcProgressBar.kt:259-262 | the arc's bounds are the view inset by half the live stroke width |
| ArcBar.ArcProgressBar.OnSizeChanged | AndroidViewUtils/src/main/java/com/azheng/viewutils/ArcProgressBar.kt:271-275 | the size is stored and the bounds recomputed for it |
| ArcBar.ArcProgressBar.SetProgressWithAnimation | AndroidViewUtils/src/main/java/com/azheng/viewutils/ArcProgressBar.kt:468-481 | the running animator is always cancelled first; the call then throws exactly when the live maximum is negative, leaving no animation running, and otherwise starts one from the live progress to the target clamped to [0, max] |
| ArcBar.ArcProgressBar.CancelAnimation | AndroidViewUtils/src/main/java/com/azheng/viewutils/ArcProgressBar.kt:501-504 | no animation is left running |
| ArcBar.ApplySynchronises | AndroidViewUtils/src/main/java/com/azheng/viewutils/ArcProgressBar.kt:130-233 | a successful `apply()` leaves every shadow equal to its live value with the flag clear, so a second `apply()` changes nothing |
| ArcBar.ApplyThrowsIff | AndroidViewUtils/src/main/java/com/azheng/viewutils/ArcProgressBar.kt:157-169 | `apply()` throws exactly when the pending maximum is negative and progress or the maximum is being changed |
| ArcBar.ApplyThrowLeavesPartialCommit | AndroidViewUtils/src/main/java/com/azheng/viewutils/ArcProgressBar.kt:142-169 | after a throw the two colours are committed, the shadows and flag are untouched, and the later parameters keep their values, apart from the maximum step 4 may have assigned |
| ArcBar.ApplyKeepsProgressInRange | AndroidViewUtils/src/main/java/com/azheng/viewutils/ArcProgressBar.kt:157-169 | a successful batch that touches progress or the maximum leaves progress in [0, max]; one that touches neither keeps it |
| ArcBar.ApplyGradientSwitch | AndroidViewUtils/src/main/java/com/azheng/viewutils/ArcProgressBar.kt:193-216 | after a successful batch the gradient is on exactly when the gradient arrays changed or the pending switch is on, and every other parameter takes its shadow |
| ArcBar.GradientThenSolidColorKeepsGradient | AndroidViewUtils/src/main/java/com/azheng/viewutils/ArcProgressBar.kt:193-208 | new gradient colours followed by a solid colour in one batch still end with the gradient on, because step 9 overrides the switch |
| ArcBar.ProgressPropertyClamps | AndroidViewUtils/src/main/java/com/azheng/viewutils/ArcProgressBar.kt:301-306 | from a synchronised view with a non-negative maximum, the `progress` property stores a changed value clamped to [0, max] |
| EdgeConfig.Step | AndroidViewUtils/src/main/java/com/azheng/viewutils/edge/EdgeToEdgeConfig.kt:44-90 | one Builder call changes only the setting it names; a colour call also makes that bar transparent exactly when the colour is TRANSPARENT, and no other call touches a bar's colour or transparency |
| EdgeConfig.Builder.constructor | AndroidViewUtils/src/main/java/com/azheng/viewutils/edge/EdgeToEdgeConfig.kt:28-40 | a fresh Builder holds the defaults: enabled, both bars transparent with light icons and TRANSPARENT colour, status bar, navigation bar and display cutout fitted, IME not fitted, no padding or margin view |
| EdgeConfig.Builder.SetEnabled | AndroidViewUtils/src/main/java/com/azheng/viewutils/edge/EdgeToEdgeConfig.kt:44 | `enabled` changes only the enabled flag |
| EdgeConfig.Builder.SetStatusBarTransparent | AndroidViewUtils/src/main/java/com/azheng/viewutils/edge/EdgeToEdgeConfig.kt:47-49 | `statusBarTransparent` changes only the status bar's transparency, leaving its colour |
| EdgeConfig.Builder.SetNavigationBarTransparent | AndroidViewUtils/src/main/java/com/azheng/viewutils/edge/EdgeToEdgeConfig.kt:52-54 | `navigationBarTransparent` changes only the navigation bar's transparency |
| EdgeConfig.Builder.SetStatusBarColor | AndroidViewUtils/src/main/java/com/azheng/viewutils/edge/EdgeToEdgeConfig.kt:57-60 | `statusBarColor` stores the colour and sets transparency to (colour == TRANSPARENT); nothing else changes |
| EdgeConfig.Builder.SetNavigationBarColor | AndroidViewUtils/src/main/java/com/azheng/viewutils/edge/EdgeToEdgeConfig.kt:63-66 | the same rule for the navigation bar |
| EdgeConfig.Builder.SetLightStatusBar | AndroidViewUtils/src/main/java/com/azheng/viewutils/edge/EdgeToEdgeConfig.kt:69 | changes only the light-status-bar flag |
| EdgeConfig.Builder.SetLightNavigationBar | AndroidViewUtils/src/main/java/com/azheng/viewutils/edge/EdgeToEdgeConfig.kt:72 | changes only the light-navigation-bar flag |
| EdgeConfig.Builder.SetFitStatusBar | AndroidViewUtils/src/main/java/com/azheng/viewutils/edge/EdgeToEdgeConfig.kt:75 | changes only the fit-status-bar flag |
| EdgeConfig.Builder.SetFitNavigationBar | AndroidViewUtils/src/main/java/com/azheng/viewutils/edge/EdgeToEdgeConfig.kt:78 | changes only the fit-navigation-bar flag |
| EdgeConfig.Builder.SetFitIme | AndroidViewUtils/src/main/java/com/azheng/viewutils/edge/EdgeToEdgeConfig.kt:81 | changes only the fit-IME flag |
| EdgeConfig.Builder.SetFitDisplayCutout | AndroidViewUtils/src/main/java/com/azheng/viewutils/edge/EdgeToEdgeConfig.kt:84 | changes only the fit-display-cutout flag |
| EdgeConfig.Builder.SetPaddingView | AndroidViewUtils/src/main/java/com/azheng/viewutils/edge/EdgeToEdgeConfig.kt:87 | changes only the padding view |
| EdgeConfig.Builder.SetMarginView | AndroidViewUtils/src/main/java/com/azheng/viewutils/edge/EdgeToEdgeConfig.kt:90 | changes only the margin view |
| EdgeConfig.Builder.Call | AndroidViewUtils/src/main/java/com/azheng/viewutils/edge/EdgeToEdgeConfig.kt:44-90 | running any Builder call on the object has the effect `Step` describes on the settings it would build |
| EdgeConfig.Builder.Build | AndroidViewUtils/src/main/java/com/azheng/viewutils/edge/EdgeToEdgeConfig.kt:92-100 | `build()` copies every Builder field into the config unchanged |
| EdgeConfig.BuildWith | AndroidViewUtils/src/main/java/com/azheng/viewutils/edge/EdgeToEdgeConfig.kt:28-100 | a configuration block on a fresh Builder builds the defaults with the block's calls applied left to right |
| EdgeConfig.Default | AndroidViewUtils/src/main/java/com/azheng/viewutils/edge/EdgeToEdgeConfig.kt:102 | `default()` is exactly the Builder defaults |
| EdgeConfig.Immersive | AndroidViewUtils/src/main/java/com/azheng/viewutils/edge/EdgeToEdgeConfig.kt:105-108 | `immersive()` is the defaults with neither bar fitted; both bars stay transparent and the cutout stays fitted |
| EdgeConfig.TransparentStatusBarPreset | AndroidViewUtils/src/main/java/com/azheng/viewutils/edge/EdgeToEdgeConfig.kt:111-114 | `transparentStatusBar()` is the defaults with an opaque WHITE navigation bar; the status bar stays transparent |
| EdgeConfig.RunSnoc | AndroidViewUtils/src/main/java/com/azheng/viewutils/edge/EdgeToEdgeConfig.kt:44-90 | a block followed by one more call equals that call applied to the block's result |
| EdgeConfig.TransparentAfterColorOverrides | AndroidViewUtils/src/main/java/com/azheng/viewutils/edge/EdgeToEdgeConfig.kt:47-60 | last write wins: an explicit transparency flag after a colour overrides the derived flag and keeps the colour |
| EdgeConfig.ColorAfterTransparentRederives | AndroidViewUtils/src/main/java/com/azheng/viewutils/edge/EdgeToEdgeConfig.kt:47-60 | a colour after an explicit flag re-derives transparency from the colour |
| EdgeConfig.FitFlagsOnlyFromFitCalls | AndroidViewUtils/src/main/java/com/azheng/viewutils/edge/EdgeToEdgeConfig.kt:44-90 | a block with no fit call leaves all four fit flags as they were (induction over the block) |
| EdgeConfig.StepKeepsFitFlags | AndroidViewUtils/src/main/java/com/azheng/viewutils/edge/EdgeToEdgeConfig.kt:44-90 | a single non-fit call keeps the four fit flags |
| EdgeConfig.LastStatusColorDecides | AndroidViewUtils/src/main/java/com/azheng/viewutils/edge/EdgeToEdgeConfig.kt:44-90 | after the last status-bar colour call (followed only by calls that do not touch the status bar), the colour is that colour and transparency is (colour == TRANSPARENT), whatever came before |
| Insets.Offset | AndroidViewUtils/src/main/java/com/azheng/viewutils/edge/InsetsStrategy.kt:40-45 | each side is the original value plus the inset on that side when the side is enabled, and the original alone otherwise |
| Insets.Dispatch | AndroidViewUtils/src/main/java/com/azheng/viewutils/edge/InsetsStrategy.kt:32-46 | one dispatch uses the captured original when there is one and the view's current values otherwise, and writes original plus insets on the enabled sides |
| Insets.PaddingInsetsStrategy.constructor | AndroidViewUtils/src/main/java/com/azheng/viewutils/edge/InsetsStrategy.kt:20-30 | a new padding strategy has the given sides (every side by default) and nothing captured |
| Insets.PaddingInsetsStrategy.Apply | AndroidViewUtils/src/main/java/com/azheng/viewutils/edge/InsetsStrategy.kt:32-46 | the first call captures the view's padding; every call writes captured padding plus insets on the enabled sides, as `Dispatch` says |
| Insets.MarginInsetsStrategy.constructor | AndroidViewUtils/src/main/java/com/azheng/viewutils/edge/InsetsStrategy.kt:53-60 | a new margin strategy has the given sides and nothing captured |
| Insets.MarginInsetsStrategy.Apply | AndroidViewUtils/src/main/java/com/azheng/viewutils/edge/InsetsStrategy.kt:62-79 | without margin layout params nothing changes, not even the capture; with them the padding rule applies to the margins |
| Insets.GetInsetTypeMask | AndroidViewUtils/src/main/java/com/azheng/viewutils/edge/InsetsStrategy.kt:91-108 | each type bit is set exactly when its fit flag is, no other bit is set, and the mask is 0 exactly when no flag is set |
| Insets.HelperSides | AndroidViewUtils/src/main/java/com/azheng/viewutils/edge/InsetsStrategy.kt:145-170 | left and right are always enabled; top and bottom default to the status-bar and navigation-bar fit flags unless the caller passes them |
| Insets.ApplyPaddingInsets | AndroidViewUtils/src/main/java/com/azheng/viewutils/edge/InsetsStrategy.kt:145-155 | installs a fresh padding strategy with nothing captured and the sides `HelperSides` gives |
| Insets.ApplyMarginInsets | AndroidViewUtils/src/main/java/com/azheng/viewutils/edge/InsetsStrategy.kt:160-170 | installs a fresh margin strategy with nothing captured and the sides `HelperSides` gives |
| Insets.RepeatedDispatchIsStable | AndroidViewUtils/src/main/java/com/azheng/viewutils/edge/InsetsStrategy.kt:32-46 | dispatching the same insets again writes the same values even after the view was edited: insets never accumulate |
| Insets.CaptureOnlyOnce | AndroidViewUtils/src/main/java/com/azheng/viewutils/edge/InsetsStrategy.kt:33-38 | once captured, the original is kept by every later dispatch |
| Insets.NoSidesOrNoInsetsRestoresOriginal | AndroidViewUtils/src/main/java/com/azheng/viewutils/edge/InsetsStrategy.kt:40-45 | with no side enabled, or with zero insets, a dispatch writes back the original values |
| EdgeExt.ActivityApply | AndroidViewUtils/src/main/java/com/azheng/viewutils/edge/applyEdgeToEdge.kt:14-19 | the Activity entry point hands the helper this activity, the given config (`default()` when omitted) and the content view |
| EdgeExt.ActivityApplyWithBuilder | AndroidViewUtils/src/main/java/com/azheng/viewutils/edge/applyEdgeToEdge.kt:21-24 | the block form hands the helper the config a fresh Builder builds after the block's calls, and no content view |
| EdgeExt.FragmentApply | AndroidViewUtils/src/main/java/com/azheng/viewutils/edge/applyEdgeToEdge.kt:29-34 | a fragment does nothing exactly when it has no activity, and otherwise behaves as its activity's entry point |
| EdgeExt.OnStatusBarInsets | AndroidViewUtils/src/main/java/com/azheng/viewutils/edge/applyEdgeToEdge.kt:39-46 | each dispatch sets only the top padding, to the status-bar inset |
| EdgeExt.OnNavigationBarInsets | AndroidViewUtils/src/main/java/com/azheng/viewutils/edge/applyEdgeToEdge.kt:51-58 | each dispatch sets only the bottom padding, to the navigation-bar inset |
| EdgeExt.OnStatusBarHeightInsets | AndroidViewUtils/src/main/java/com/azheng/viewutils/edge/applyEdgeToEdge.kt:101-110 | each dispatch sets the layout height to the status-bar height |
| EdgeExt.SystemBarsPaddingListener.constructor | AndroidViewUtils/src/main/java/com/azheng/viewutils/edge/applyEdgeToEdge.kt:63-64 | the listener captures the padding the view has when it is installed |
| EdgeExt.SystemBarsPaddingListener.OnApplyWindowInsets | AndroidViewUtils/src/main/java/com/azheng/viewutils/edge/applyEdgeToEdge.kt:66-75 | every side becomes its install-time padding plus the system-bar inset |
| EdgeExt.ImePaddingListener.constructor | AndroidViewUtils/src/main/java/com/azheng/viewutils/edge/applyEdgeToEdge.kt:82-83 | the listener captures the bottom padding at install time |
| EdgeExt.ImePaddingListener.OnApplyWindowInsets | AndroidViewUtils/src/main/java/com/azheng/viewutils/edge/applyEdgeToEdge.kt:85-94 | only the bottom padding changes, to the install-time bottom plus the larger of the IME and navigation-bar insets |
| EdgeExt.ImeBottom | AndroidViewUtils/src/main/java/com/azheng/viewutils/edge/applyEdgeToEdge.kt:89-90 | the reserved space is at least both insets and equal to one of them |
| EdgeExt.SystemBarsDispatchTwice | AndroidViewUtils/src/main/java/com/azheng/viewutils/edge/applyEdgeToEdge.kt:63-77 | two dispatches of the same system-bar insets, with any padding edit in between, leave the padding one dispatch gives: insets never accumulate |
| Circle.Lazy | AndroidViewUtils/src/main/java/com/azheng/viewutils/CircleLoadingView.kt:118-120 | reading the lazy animator returns the existing one unchanged, or a new one created in sync with the live target and duration |
| Circle.ApplySpec | AndroidViewUtils/src/main/java/com/azheng/viewutils/CircleLoadingView.kt:238-313 | with nothing pending nothing changes; otherwise every live parameter takes its shadow, the shadows stay equal to the live values, the flag clears, and an animator in sync with the live values stays in sync |
| Circle.DrawnSweep | AndroidViewUtils/src/main/java/com/azheng/viewutils/CircleLoadingView.kt:651-665 | no progress arc is drawn exactly when the current progress is not positive; the drawn sweep has the sign of the sweep angle, never exceeds it in size for progress up to 100, and equals it at 100 |
| Circle.Dp2Px | AndroidViewUtils/src/main/java/com/azheng/viewutils/CircleLoadingView.kt:619-625 | a non-negative dp value converts to the largest whole pixel count not above dp times density |
| Circle.CircleLoadingView.constructor | AndroidViewUtils/src/main/java/com/azheng/viewutils/CircleLoadingView.kt:58-109 | without XML attributes: stroke 8 dp, duration 2000 ms, target 80, background ring from 270 sweeping 360, progress from 270 sweeping -360; shadows equal to the live values, no animator yet, progress 0 |
| Circle.CircleLoadingView.ResetPendingParams | AndroidViewUtils/src/main/java/com/azheng/viewutils/CircleLoadingView.kt:212-228 | every shadow takes its live value and the pending flag clears |
| Circle.CircleLoadingView.TouchAnimator | AndroidViewUtils/src/main/java/com/azheng/viewutils/CircleLoadingView.kt:118-120 | the first read of the animator creates it from the live target and duration; later reads return the same one |
| Circle.CircleLoadingView.CommitStyle | AndroidViewUtils/src/main/java/com/azheng/viewutils/CircleLoadingView.kt:251-270 | the stroke width and the two colours take their shadows; nothing else changes |
| Circle.CircleLoadingView.CommitAnimation | AndroidViewUtils/src/main/java/com/azheng/viewutils/CircleLoadingView.kt:273-284 | the duration and target take their shadows, and each change is forwarded to the (lazily created) animator exactly as `ApplySpec` says |
| Circle.CircleLoadingView.CommitAngles | AndroidViewUtils/src/main/java/com/azheng/viewutils/CircleLoadingView.kt:288-303 | the four angles take their shadows; nothing else changes |
| Circle.CircleLoadingView.Apply | AndroidViewUtils/src/main/java/com/azheng/viewutils/CircleLoadingView.kt:532-535 | `apply()` leaves the view as `ApplySpec` of the view before it, and keeps the target a percentage and the animator in sync |
| Circle.CircleLoadingView.SetCircleStrokeWidthDp | AndroidViewUtils/src/main/java/com/azheng/viewutils/CircleLoadingView.kt:404-408 | only the stroke-width shadow changes, to the dp value in pixels, and a change is pending |
| Circle.CircleLoadingView.SetCircleStrokeWidthPx | AndroidViewUtils/src/main/java/com/azheng/viewutils/CircleLoadingView.kt:416-420 | only the stroke-width shadow changes, to the pixel value |
| Circle.CircleLoadingView.SetProgressColor | AndroidViewUtils/src/main/java/com/azheng/viewutils/CircleLoadingView.kt:428-432 | only the progress-colour shadow changes |
| Circle.CircleLoadingView.SetBgCircleColor | AndroidViewUtils/src/main/java/com/azheng/viewutils/CircleLoadingView.kt:440-444 | only the background-colour shadow changes |
| Circle.CircleLoadingView.SetAnimationDuration | AndroidViewUtils/src/main/java/com/azheng/viewutils/CircleLoadingView.kt:452-456 | only the duration shadow changes |
| Circle.CircleLoadingView.SetTargetProgress | AndroidViewUtils/src/main/java/com/azheng/viewutils/CircleLoadingView.kt:464-468 | only the target shadow changes, clamped to [0, 100], so the target stays a percentage |
| Circle.CircleLoadingView.SetBgStartAngle | AndroidViewUtils/src/main/java/com/azheng/viewutils/CircleLoadingView.kt:482-486 | only the background start-angle shadow changes |
| Circle.CircleLoadingView.SetBgSweepAngle | AndroidViewUtils/src/main/java/com/azheng/viewutils/CircleLoadingView.kt:494-498 | only the background sweep-angle shadow changes |
| Circle.CircleLoadingView.SetProgressStartAngle | AndroidViewUtils/src/main/java/com/azheng/viewutils/CircleLoadingView.kt:506-510 | only the progress start-angle shadow changes |
| Circle.CircleLoadingView.SetProgressSweepAngle | AndroidViewUtils/src/main/java/com/azheng/viewutils/CircleLoadingView.kt:518-522 | only the progress sweep-angle shadow changes |
| Circle.CircleLoadingView.StartLoadingAnimation | AndroidViewUtils/src/main/java/com/azheng/viewutils/CircleLoadingView.kt:547-555 | the animator runs from 0 to the live target over the live duration; unapplied shadows are not used |
| Circle.CircleLoadingView.StopLoadingAnimation | AndroidViewUtils/src/main/java/com/azheng/viewutils/CircleLoadingView.kt:567-574 | the animator (created if needed) is no longer running and the drawn progress drops to 0, so no progress arc is drawn |
| Circle.CircleLoadingView.OnVisibilityChanged | AndroidViewUtils/src/main/java/com/azheng/viewutils/CircleLoadingView.kt:378-384 | becoming not visible stops the animation; becoming visible changes nothing |
| Circle.CircleLoadingView.OnDetachedFromWindow | AndroidViewUtils/src/main/java/com/azheng/viewutils/CircleLoadingView.kt:391-394 | detaching stops the animation and resets the drawn progress |
| Circle.CircleLoadingView.OnSizeChanged | AndroidViewUtils/src/main/java/com/azheng/viewutils/CircleLoadingView.kt:321-329 | the new size is stored and the ring rectangle is the view inset by half the stroke width on every side |
| Circle.ApplyIdempotent | AndroidViewUtils/src/main/java/com/azheng/viewutils/CircleLoadingView.kt:238-313 | a second `apply()` right after the first changes nothing |
| Circle.ApplyAnimatorCreation | AndroidViewUtils/src/main/java/com/azheng/viewutils/CircleLoadingView.kt:273-284 | a batch that changes neither duration nor target does not create the animator; one that changes either leaves one aimed from 0 at the new target over the new duration; an existing animator keeps its running state |
| Circle.AppliedTargetIsPercentage | AndroidViewUtils/src/main/java/com/azheng/viewutils/CircleLoadingView.kt:464-468 | whatever was set, an applied target is in [0, 100], and an in-range value is taken exactly |
| Dashed.FromValue | AndroidViewUtils/src/main/java/com/azheng/viewutils/DashedLineView.kt:63 | `fromValue` gives VERTICAL exactly for the VERTICAL constant and HORIZONTAL for every other value |
| Dashed.Dp2Px | AndroidViewUtils/src/main/java/com/azheng/viewutils/DashedLineView.kt:244-246 | the pixel size is dp times density plus half a pixel, kept as a Float |
| Dashed.DashInterval | AndroidViewUtils/src/main/java/com/azheng/viewutils/DashedLineView.kt:129-135 | the dash interval always has a positive dash and a non-negative gap: a non-positive dash becomes 1, a negative gap 0, others are kept |
| Dashed.PaintFor | AndroidViewUtils/src/main/java/com/azheng/viewutils/DashedLineView.kt:129-135 | the paint carries the live stroke width and colour, and a sanitised line's own dash interval |
| Dashed.PathFor | AndroidViewUtils/src/main/java/com/azheng/viewutils/DashedLineView.kt:220-241 | a horizontal line runs across the padded width at half the height, a vertical one down the padded height at half the width; there is a segment exactly when the padding leaves room, and it never runs backwards |
| Dashed.ApplySpec | AndroidViewUtils/src/main/java/com/azheng/viewutils/DashedLineView.kt:140-185 | with nothing pending nothing changes; otherwise every live parameter takes its shadow, the flag clears, and the path becomes dirty exactly when it was dirty or the orientation changed |
| Dashed.ApplyEffects | AndroidViewUtils/src/main/java/com/azheng/viewutils/DashedLineView.kt:140-185 | `apply()` requests a layout pass exactly when the width or orientation changed and a redraw exactly when anything changed, and neither with nothing pending |
| Dashed.RunInit | AndroidViewUtils/src/main/java/com/azheng/viewutils/DashedLineView.kt:68-85 | running the property initialisers converts one size per dp default and fails when a conversion comes before the display metrics are assigned |
| Dashed.DeclaredOrderAlwaysFails | AndroidViewUtils/src/main/java/com/azheng/viewutils/DashedLineView.kt:68-85 | in the declared order (three dp defaults at 68-70 before `displayMetrics` at 85) construction fails for every density |
| Dashed.CorrectedOrderConverts | AndroidViewUtils/src/main/java/com/azheng/viewutils/DashedLineView.kt:68-85 | with `displayMetrics` initialised first, the three defaults are the converted 1, 4 and 2 dp |
| Dashed.DashedLineView.constructor | AndroidViewUtils/src/main/java/com/azheng/viewutils/DashedLineView.kt:94-111 | without XML attributes the width is at least 0.5, the dash at least 1 and the gap at least 0 (1, 4 and 2 dp converted), the colour is the opaque #F5EFE0, horizontal, shadows equal to the live values, paint in sync, path dirty |
| Dashed.DashedLineView.ResetPendingParams | AndroidViewUtils/src/main/java/com/azheng/viewutils/DashedLineView.kt:117-124 | every shadow takes its live value and the pending flag clears |
| Dashed.DashedLineView.ApplyPaintSettings | AndroidViewUtils/src/main/java/com/azheng/viewutils/DashedLineView.kt:129-135 | the paint is brought in line with the live parameters |
| Dashed.DashedLineView.Apply | AndroidViewUtils/src/main/java/com/azheng/viewutils/DashedLineView.kt:296-299 | `apply()` leaves the view as `ApplySpec` says, returns the layout and redraw requests `ApplyEffects` says, and keeps the paint and a clean path in sync |
| Dashed.DashedLineView.SetLineWidthDp | AndroidViewUtils/src/main/java/com/azheng/viewutils/DashedLineView.kt:252-256 | only the width shadow changes, to the converted width but at least half a pixel |
| Dashed.DashedLineView.SetDashParamsDp | AndroidViewUtils/src/main/java/com/azheng/viewutils/DashedLineView.kt:261-266 | only the dash and gap shadows change, to a dash of at least 1 pixel and a gap of at least 0 |
| Dashed.DashedLineView.SetLineColor | AndroidViewUtils/src/main/java/com/azheng/viewutils/DashedLineView.kt:271-275 | only the colour shadow changes |
| Dashed.DashedLineView.SetOrientation | AndroidViewUtils/src/main/java/com/azheng/viewutils/DashedLineView.kt:287-291 | only the orientation shadow changes |
| Dashed.DashedLineView.SetOrientationValue | AndroidViewUtils/src/main/java/com/azheng/viewutils/DashedLineView.kt:280-282 | the Int overload sets the orientation shadow through `fromValue` |
| Dashed.DashedLineView.SetLineWidth | AndroidViewUtils/src/main/java/com/azheng/viewutils/DashedLineView.kt:305-308 | the immediate setter is the chain setter followed by `apply()` |
| Dashed.DashedLineView.SetDashParams | AndroidViewUtils/src/main/java/com/azheng/viewutils/DashedLineView.kt:313-315 | the immediate setter is the chain setter followed by `apply()` |
| Dashed.DashedLineView.OnSizeChanged | AndroidViewUtils/src/main/java/com/azheng/viewutils/DashedLineView.kt:207-210 | the size is stored and the path marked dirty |
| Dashed.DashedLineView.OnDraw | AndroidViewUtils/src/main/java/com/azheng/viewutils/DashedLineView.kt:212-218 | a dirty path is rebuilt first, so the drawn path is always the one the live orientation and size call for |
| Dashed.DashedLineView.RebuildPath | AndroidViewUtils/src/main/java/com/azheng/viewutils/DashedLineView.kt:220-241 | the path becomes `PathFor` of the live orientation, size and padding |
| Dashed.ApplyIdempotent | AndroidViewUtils/src/main/java/com/azheng/viewutils/DashedLineView.kt:140-185 | a second `apply()` changes nothing and requests nothing |
| Dashed.DashOrColorOnlyRedraws | AndroidViewUtils/src/main/java/com/azheng/viewutils/DashedLineView.kt:140-185 | a batch changing only the dash or the colour redraws without a layout pass and without dirtying the path |
| Dashed.OrientationChangeRebuildsPath | AndroidViewUtils/src/main/java/com/azheng/viewutils/DashedLineView.kt:140-185 | an orientation change requests a layout pass and a redraw and dirties the path |
| Dashed.SanitisedIntervalIsUnchanged | AndroidViewUtils/src/main/java/com/azheng/viewutils/DashedLineView.kt:129-135 | a line whose setters sanitised it draws with its own dash and gap |
| Viewer.ChooseOptions | AndroidViewUtils/src/main/java/com/azheng/viewutils/imageviewer/ImageViewer.kt:229-240 | explicit activity options always win; otherwise a shared-element transition is used exactly when one was requested with a view from an Activity context, named by the given name or "image_transition"; otherwise no options |
| Viewer.Builder.constructor | AndroidViewUtils/src/main/java/com/azheng/viewutils/imageviewer/ImageViewer.kt:43-67 | a new builder holds no images, start position 0, black background, text indicator shown, swipe, click-to-close and zoom on, fade in and fade out, no options, no shared element, no callback |
| Viewer.Builder.SetImage | AndroidViewUtils/src/main/java/com/azheng/viewutils/imageviewer/ImageViewer.kt:71-74 | the image list becomes exactly the one URL, whatever it held before |
| Viewer.Builder.SetImages | AndroidViewUtils/src/main/java/com/azheng/viewutils/imageviewer/ImageViewer.kt:77-86 | both overloads replace the image list by exactly the given URLs |
| Viewer.Builder.SetStartPosition | AndroidViewUtils/src/main/java/com/azheng/viewutils/imageviewer/ImageViewer.kt:89-91 | records the requested start position unchecked (the clamping happens at show) |
| Viewer.Builder.SetBackgroundColor | AndroidViewUtils/src/main/java/com/azheng/viewutils/imageviewer/ImageViewer.kt:96-98 | records the background colour and touches no other setting |
| Viewer.Builder.ShowIndicator | AndroidViewUtils/src/main/java/com/azheng/viewutils/imageviewer/ImageViewer.kt:101-103 | records whether the page indicator is shown and touches no other setting |
| Viewer.Builder.SetIndicatorStyle | AndroidViewUtils/src/main/java/com/azheng/viewutils/imageviewer/ImageViewer.kt:106-108 | records the indicator style and touches no other setting |
| Viewer.Builder.SetCustomIndicator | AndroidViewUtils/src/main/java/com/azheng/viewutils/imageviewer/ImageViewer.kt:111-113 | records the custom indicator and touches no other setting |
| Viewer.Builder.SetClickToClose | AndroidViewUtils/src/main/java/com/azheng/viewutils/imageviewer/ImageViewer.kt:118-120 | records click-to-close and touches no other setting |
| Viewer.Builder.SetSwipeToDismiss | AndroidViewUtils/src/main/java/com/azheng/viewutils/imageviewer/ImageViewer.kt:123-125 | records swipe-to-dismiss and touches no other setting |
| Viewer.Builder.SetEnableZoom | AndroidViewUtils/src/main/java/com/azheng/viewutils/imageviewer/ImageViewer.kt:128-130 | records whether zoom is enabled and touches no other setting |
| Viewer.Builder.SetEnterAnim | AndroidViewUtils/src/main/java/com/azheng/viewutils/imageviewer/ImageViewer.kt:136-138 | records the enter animation and touches no other setting |
| Viewer.Builder.SetExitAnim | AndroidViewUtils/src/main/java/com/azheng/viewutils/imageviewer/ImageViewer.kt:141-143 | records the exit animation and touches no other setting |
| Viewer.Builder.SetAnimation | AndroidViewUtils/src/main/java/com/azheng/viewutils/imageviewer/ImageViewer.kt:146-149 | sets the enter and the exit animation together |
| Viewer.Builder.SetActivityOptions | AndroidViewUtils/src/main/java/com/azheng/viewutils/imageviewer/ImageViewer.kt:152-154 | records explicit activity options, which then take precedence at show |
| Viewer.Builder.SetSharedElement | AndroidViewUtils/src/main/java/com/azheng/viewutils/imageviewer/ImageViewer.kt:157-161 | requests a shared-element transition and records its view and name |
| Viewer.Builder.SetScaleAnimation | AndroidViewUtils/src/main/java/com/azheng/viewutils/imageviewer/ImageViewer.kt:164-175 | from an Activity the options become a scale-up from the view's whole bounds; from any other context nothing changes |
| Viewer.Builder.SetClipRevealAnimation | AndroidViewUtils/src/main/java/com/azheng/viewutils/imageviewer/ImageViewer.kt:178-187 | from an Activity at API level 23 or later the options become a clip reveal of size zero from the view's centre (half its width and height, rounded down); otherwise nothing changes |
| Viewer.Builder.DisableAnimation | AndroidViewUtils/src/main/java/com/azheng/viewutils/imageviewer/ImageViewer.kt:190-193 | both the enter and the exit animation become 0 (none) |
| Viewer.Builder.SetCallback | AndroidViewUtils/src/main/java/com/azheng/viewutils/imageviewer/ImageViewer.kt:198-200 | records the viewer callback |
| Viewer.Builder.Show | AndroidViewUtils/src/main/java/com/azheng/viewutils/imageviewer/ImageViewer.kt:205-243 | throws IllegalArgumentException exactly when no image was set; otherwise starts the viewer with every setting copied, the start position clamped to a valid index (negative to 0, too large to the last), the page transformer off, 300 ms animations, activity options in use, the options ChooseOptions picks, and the callback and custom indicator handed over |
| Viewer.ImageViewer.constructor | AndroidViewUtils/src/main/java/com/azheng/viewutils/imageviewer/ImageViewer.kt:14-16 | the companion starts uninitialised and has initialised no image loader |
| Viewer.ImageViewer.Init | AndroidViewUtils/src/main/java/com/azheng/viewutils/imageviewer/ImageViewer.kt:21-26 | afterwards the viewer is initialised; the image loader is initialised only by the first call |
| Viewer.ImageViewer.With | AndroidViewUtils/src/main/java/com/azheng/viewutils/imageviewer/ImageViewer.kt:32-35 | fails exactly when init has not run; otherwise returns a fresh builder for the context with the default settings |
| Viewer.InitTwiceInitialisesOnce | AndroidViewUtils/src/main/java/com/azheng/viewutils/imageviewer/ImageViewer.kt:21-35 | calling init twice initialises the loader once and with then succeeds |
| Viewer.WithBeforeInitFails | AndroidViewUtils/src/main/java/com/azheng/viewutils/imageviewer/ImageViewer.kt:32-35 | with before any init fails |
| Viewer.SingleImageUsesConfigDefaults | AndroidViewUtils/src/main/java/com/azheng/viewutils/imageviewer/ViewerConfig.kt:6-31 | the builder's defaults agree with the configuration's own defaults: showing one image with no other setter starts the default configuration holding that image, with no options, callback or custom indicator |
| Viewer.LastImageListWins | AndroidViewUtils/src/main/java/com/azheng/viewutils/imageviewer/ImageViewer.kt:71-91 | a later setImages discards an earlier setImage, and the start position is clamped into the new list |
| BlockImage.SpanInsertions | AndroidViewUtils/src/main/java/com/azheng/viewutils/markwon/BlockImagePlugin.kt:27-38 | one image span asks for a newline at its start exactly when it does not start the text and does not follow a newline, and one at its end exactly when it does not end the text and is not followed by a newline; both offsets lie inside the text |
| BlockImage.Insertions | AndroidViewUtils/src/main/java/com/azheng/viewutils/markwon/BlockImagePlugin.kt:24-39 | all offsets the spans ask for, span by span, each at most the text length |
| BlockImage.SortDescending | AndroidViewUtils/src/main/java/com/azheng/viewutils/markwon/BlockImagePlugin.kt:42 | `sortedByDescending` keeps the same offsets (as a multiset) in descending order |
| BlockImage.InsertDescending | AndroidViewUtils/src/main/java/com/azheng/viewutils/markwon/BlockImagePlugin.kt:42 | inserting one offset into a descending list gives a descending permutation of the list plus that offset |
| BlockImage.InsertNewline | AndroidViewUtils/src/main/java/com/azheng/viewutils/markwon/BlockImagePlugin.kt:43 | `insert(position, "\n")` makes the text one character longer |
| BlockImage.TextView.constructor | AndroidViewUtils/src/main/java/com/azheng/viewutils/markwon/BlockImagePlugin.kt:15-16 | a text view holds the text it was given |
| BlockImage.AfterSetText | AndroidViewUtils/src/main/java/com/azheng/viewutils/markwon/BlockImagePlugin.kt:15-48 | a plain text is left alone; a spannable one is replaced by the original characters with one newline inserted at each decided offset, each at its original position |
| BlockImage.CollectInsertions | AndroidViewUtils/src/main/java/com/azheng/viewutils/markwon/BlockImagePlugin.kt:24-39 | the loop over the image spans records exactly the offsets `Insertions` decides, in order |
| BlockImage.AddSpanInsertions | AndroidViewUtils/src/main/java/com/azheng/viewutils/markwon/BlockImagePlugin.kt:27-38 | one loop iteration appends the decisions for its span and nothing else |
| BlockImage.InsertAll | AndroidViewUtils/src/main/java/com/azheng/viewutils/markwon/BlockImagePlugin.kt:42-44 | inserting in descending order puts every newline at its original offset: each later insertion is at or before it, so it never shifts an earlier one |
| BlockImage.InsertAtOriginalOffset | AndroidViewUtils/src/main/java/com/azheng/viewutils/markwon/BlockImagePlugin.kt:42-44 | with every other insertion at or after offset p, one more newline at p is a plain insertion at position p of the result (induction) |
| BlockImage.ResultLength | AndroidViewUtils/src/main/java/com/azheng/viewutils/markwon/BlockImagePlugin.kt:42-46 | the result is the original length plus one per decided insertion |
| BlockImage.OriginalCharactersKept | AndroidViewUtils/src/main/java/com/azheng/viewutils/markwon/BlockImagePlugin.kt:42-46 | dropping the newlines from the result gives the original text with its own newlines dropped: no character is lost, changed or reordered (induction) |
| BlockImage.NoNewlinesIsOriginal | AndroidViewUtils/src/main/java/com/azheng/viewutils/markwon/BlockImagePlugin.kt:42-46 | with no insertions the text is unchanged |
| BlockImage.AlreadyBlockIsUnchanged | AndroidViewUtils/src/main/java/com/azheng/viewutils/markwon/BlockImagePlugin.kt:31-46 | a text where every image already has a line of its own gets no insertion and comes back unchanged |
| SpanMatch.LowerChar | AndroidViewUtils/src/main/java/com/azheng/viewutils/SpanMatchKeywordUtils.kt:24-25 | ASCII capitals map to their lower-case letter; every other character is kept |
| SpanMatch.Lower | AndroidViewUtils/src/main/java/com/azheng/viewutils/SpanMatchKeywordUtils.kt:24-25 | lower-casing keeps the length and maps each character on its own |
| SpanMatch.IndexOfFrom | AndroidViewUtils/src/main/java/com/azheng/viewutils/SpanMatchKeywordUtils.kt:26 | the result is the first occurrence at or after the start position, or -1 exactly when there is none |
| SpanMatch.IndexOf | AndroidViewUtils/src/main/java/com/azheng/viewutils/SpanMatchKeywordUtils.kt:26 | `indexOf` is -1 exactly when the pattern occurs nowhere, and otherwise the position of its first occurrence |
| SpanMatch.HighlightFirstMatchKeyword | AndroidViewUtils/src/main/java/com/azheng/viewutils/SpanMatchKeywordUtils.kt:16-41 | the text is never changed and gets at most one span; none exactly when the keyword is empty, longer than the text or has no case-insensitive match; otherwise the span covers the first such match, keyword-long, in the given colour |
| SpanMatch.CaseOfKeywordDoesNotMatter | AndroidViewUtils/src/main/java/com/azheng/viewutils/SpanMatchKeywordUtils.kt:24-26 | two keywords that agree after lower-casing highlight exactly the same span |
| SpanMatch.ExactOccurrenceIsFound | AndroidViewUtils/src/main/java/com/azheng/viewutils/SpanMatchKeywordUtils.kt:19-39 | a non-empty keyword that occurs verbatim always gets a span, starting no later than that occurrence |
| MatchParentImage.ResolveImageSize | AndroidViewUtils/src/main/java/com/azheng/viewutils/markwon/MatchParentImagePlugin.kt:24-38 | bounds with a non-positive canvas width, width or height come back unchanged; otherwise the rect starts at the origin, is exactly the canvas wide, and its height is the image height scaled by canvas/width and truncated |
| MatchParentImage.ScaledHeightBounds | AndroidViewUtils/src/main/java/com/azheng/viewutils/markwon/MatchParentImagePlugin.kt:33-34 | the truncated height n of h * (c / w) is non-negative and satisfies n * w <= h * c < (n + 1) * w |
| MatchParentImage.SameWidthKeepsHeight | AndroidViewUtils/src/main/java/com/azheng/viewutils/markwon/MatchParentImagePlugin.kt:31-35 | a canvas exactly as wide as the image keeps its width and height (the rect moves to the origin) |
| MatchParentImage.WiderCanvasIsTaller | AndroidViewUtils/src/main/java/com/azheng/viewutils/markwon/MatchParentImagePlugin.kt:31-35 | a wider canvas never gives a shorter image |
| Indicator.DigitChar | AndroidViewUtils/src/main/java/com/azheng/viewutils/imageviewer/DefaultIndicator.kt:52 | a digit below ten prints as the character whose distance from '0' is that digit |
| Indicator.NatToString | AndroidViewUtils/src/main/java/com/azheng/viewutils/imageviewer/DefaultIndicator.kt:52 | a natural number prints as a non-empty string of decimal digits |
| Indicator.IntToString | AndroidViewUtils/src/main/java/com/azheng/viewutils/imageviewer/DefaultIndicator.kt:52 | an Int in a string template prints as a non-empty string of digits and minus signs that starts with '-' exactly when the number is negative |
| Indicator.ParseNatToString | AndroidViewUtils/src/main/java/com/azheng/viewutils/imageviewer/DefaultIndicator.kt:52 | reading the printed digits of a natural number back gives that number |
| Indicator.ParseIntToString | AndroidViewUtils/src/main/java/com/azheng/viewutils/imageviewer/DefaultIndicator.kt:52 | every Int prints to a string that reads back as the same Int, so printing loses nothing |
| Indicator.SplitAtSeparator | AndroidViewUtils/src/main/java/com/azheng/viewutils/imageviewer/DefaultIndicator.kt:52 | two labels joined by " / " from space-free halves are equal only when both halves are equal |
| Indicator.PageLabelDeterminesPage | AndroidViewUtils/src/main/java/com/azheng/viewutils/imageviewer/DefaultIndicator.kt:50-54 | the label "position + 1 / total" identifies both the page and the total: two different pairs never show the same text |
| Indicator.TextView.constructor | AndroidViewUtils/src/main/java/com/azheng/viewutils/imageviewer/DefaultIndicator.kt:27-41 | a new label has no text, is visible, and carries the colour, text size, background, padding and bottom margin it is given |
| Indicator.Dp2Px | AndroidViewUtils/src/main/java/com/azheng/viewutils/imageviewer/DefaultIndicator.kt:60-66 | a non-negative dp at a non-negative density gives a non-negative pixel count |
| Indicator.DefaultIndicator.constructor | AndroidViewUtils/src/main/java/com/azheng/viewutils/imageviewer/DefaultIndicator.kt:11-16 | a new indicator keeps its style, has no label and a total of 0 |
| Indicator.DefaultIndicator.CreateTextIndicator | AndroidViewUtils/src/main/java/com/azheng/viewutils/imageviewer/DefaultIndicator.kt:26-43 | creates and remembers a new visible label: white 14 sp text on 0x66000000, padded 16 and 8 dp, 32 dp above the bottom |
| Indicator.DefaultIndicator.CreateView | AndroidViewUtils/src/main/java/com/azheng/viewutils/imageviewer/DefaultIndicator.kt:18-24 | style NONE gives a plain view that is gone and creates no label; TEXT and DOT both create and remember the same white label |
| Indicator.DefaultIndicator.OnPageSelected | AndroidViewUtils/src/main/java/com/azheng/viewutils/imageviewer/DefaultIndicator.kt:50-54 | records the total; when a label exists it shows "position + 1 / total" and is visible exactly when there is more than one page |
| Indicator.DefaultIndicator.SetTotal | AndroidViewUtils/src/main/java/com/azheng/viewutils/imageviewer/DefaultIndicator.kt:56-58 | records the total and changes nothing on screen |
| Indicator.DotMatchesText | AndroidViewUtils/src/main/java/com/azheng/viewutils/imageviewer/DefaultIndicator.kt:45-48 | a DOT indicator shows exactly the same label as a TEXT indicator for every page and total |
| Indicator.NoneIndicatorHasNoLabel | AndroidViewUtils/src/main/java/com/azheng/viewutils/imageviewer/DefaultIndicator.kt:18-24 | with style NONE selecting a page shows no label and only records the total |
| PageTransformer.ScaleFactor | AndroidViewUtils/src/main/java/com/azheng/viewutils/imageviewer/ScalePageTransformer.kt:21 | the scale is the larger of the minimum scale and one less the distance from the centre: at least both, and equal to one of them |
| PageTransformer.AlphaFor | AndroidViewUtils/src/main/java/com/azheng/viewutils/imageviewer/ScalePageTransformer.kt:34 | alpha rises linearly with the scale: the minimum alpha at the minimum scale and fully opaque at full size |
| PageTransformer.TransformPage | AndroidViewUtils/src/main/java/com/azheng/viewutils/imageviewer/ScalePageTransformer.kt:12-40 | a page more than one page away only becomes transparent; a nearer page keeps its size, is scaled uniformly by ScaleFactor, faded by AlphaFor and shifted |
| PageTransformer.CentredPageIsUntouchedInSize | AndroidViewUtils/src/main/java/com/azheng/viewutils/imageviewer/ScalePageTransformer.kt:20-35 | the centred page is at full scale, fully opaque and not shifted |
| PageTransformer.AdjacentPageIsAtMinimum | AndroidViewUtils/src/main/java/com/azheng/viewutils/imageviewer/ScalePageTransformer.kt:20-35 | a page exactly one page away is at the minimum scale and the minimum alpha |
| PageTransformer.MirroredPagesAreSymmetric | AndroidViewUtils/src/main/java/com/azheng/viewutils/imageviewer/ScalePageTransformer.kt:20-35 | pages at opposite positions are scaled and faded alike and shifted by opposite amounts |
| PageTransformer.AlphaAndScaleInRange | AndroidViewUtils/src/main/java/com/azheng/viewutils/imageviewer/ScalePageTransformer.kt:20-35 | with the minimum scale in [0, 1) and the minimum alpha at most 1, a visible page's scale lies between the minimum scale and 1 and its alpha between the minimum alpha and 1 |
| ImageLoad.BuildTransformations | AndroidViewUtils/src/main/java/com/azheng/viewutils/ImageView.kt:178-194 | the list holds a centre crop first exactly when asked, a circle crop exactly when round, rounded corners (margin 0) exactly when not round with a positive radius, never two shapes, and a blur last exactly when the blur radius is positive; its length counts those three choices |
| ImageLoad.ToRequestOptions | AndroidViewUtils/src/main/java/com/azheng/viewutils/ImageView.kt:157-173 | the transformations are applied exactly when there are some; the placeholder, which doubles as the error image, is set exactly when asked for; the disk cache strategy is always the configured one |
| ImageLoad.FindComponentActivity | AndroidViewUtils/src/main/java/com/azheng/viewutils/ImageView.kt:207-213 | whatever the search returns is a ComponentActivity |
| ImageLoad.FindComponentActivityIsFirst | AndroidViewUtils/src/main/java/com/azheng/viewutils/ImageView.kt:207-213 | the activity found is the one reached by unwrapping base contexts some number of times, and nothing is found exactly when no unwrapping depth reaches an activity |
| ImageLoad.IsContextValid | AndroidViewUtils/src/main/java/com/azheng/viewutils/ImageView.kt:199-202 | a context is valid exactly when it leads to no activity, or to one that is neither destroyed nor finishing |
| ImageLoad.WrappingKeepsValidity | AndroidViewUtils/src/main/java/com/azheng/viewutils/ImageView.kt:199-213 | wrapping a context does not change whether it is valid |
| ImageLoad.LoadImage | AndroidViewUtils/src/main/java/com/azheng/viewutils/ImageView.kt:43-51 | nothing is loaded exactly when the context is not valid; otherwise the URL is loaded with the configuration's request options, and with a thumbnail of the configured size exactly when that size is positive |
| ImageLoad.SetImageUrlConfig | AndroidViewUtils/src/main/java/com/azheng/viewutils/ImageView.kt:56-77 | missing radius and blur become 0, missing sampling 1, a missing placeholder the default one; the placeholder is shown only on request, the disk cache keeps everything, no thumbnail and a centre crop |
| ImageLoad.SetImageUrl | AndroidViewUtils/src/main/java/com/azheng/viewutils/ImageView.kt:56-77 | loads as loadImage with that configuration, and never with a thumbnail |
| ImageLoad.SetImageUrlResConfig | AndroidViewUtils/src/main/java/com/azheng/viewutils/ImageView.kt:82-100 | local resources always show the placeholder, skip the disk cache, keep sampling 1 and load no thumbnail |
| ImageLoad.SetImageUrlItemConfig | AndroidViewUtils/src/main/java/com/azheng/viewutils/ImageView.kt:105-124 | list items always show the placeholder, let the library choose the cache and ask for a quarter-size thumbnail |
| ImageLoad.SetImageUrlNoPlaceholder | AndroidViewUtils/src/main/java/com/azheng/viewutils/ImageView.kt:129-132 | nothing is loaded exactly when the context is not valid; otherwise the URL is loaded with no options and no thumbnail |
| ImageLoad.SetImageUrlDefaultsAreConfigDefaults | AndroidViewUtils/src/main/java/com/azheng/viewutils/ImageView.kt:26-77 | setImageUrl with every argument left at its default loads exactly like loadImage with the default configuration |
| ImageLoad.DefaultConfigOnlyCrops | AndroidViewUtils/src/main/java/com/azheng/viewutils/ImageView.kt:26-36 | the default configuration's request options only centre-crop, set no placeholder and cache everything |
| ImageLoad.RoundIgnoresRadius | AndroidViewUtils/src/main/java/com/azheng/viewutils/ImageView.kt:184-187 | for a round image the corner radius makes no difference to the transformations |
| ImageLoad.ItemLoadsThumbnailResourceDoesNot | AndroidViewUtils/src/main/java/com/azheng/viewutils/ImageView.kt:82-124 | from a valid context a list item loads a quarter-size thumbnail and a resource image loads none |
| BitmapSave.IsWebpFormat | AndroidViewUtils/src/main/java/com/azheng/viewutils/BitmapSaveUtils.kt:179-192 | the legacy WEBP is always recognised, the lossy and lossless variants exactly from API level 30 on, JPEG and PNG never |
| BitmapSave.GetFormatInfo | AndroidViewUtils/src/main/java/com/azheng/viewutils/BitmapSaveUtils.kt:163-176 | JPEG and PNG have their own type and extension; any other format is saved as WEBP exactly when it is recognised as WEBP and otherwise falls back to JPEG |
| BitmapSave.GetWebpFormat | AndroidViewUtils/src/main/java/com/azheng/viewutils/BitmapSaveUtils.kt:199-210 | from API level 30 on the lossless or lossy variant as asked; below it the legacy WEBP whatever was asked |
| BitmapSave.SavedFileName | AndroidViewUtils/src/main/java/com/azheng/viewutils/BitmapSaveUtils.kt:75-82 | the file name is the caller's name, or the generated one when none is given, followed by exactly the format's extension |
| BitmapSave.MediaStoreRecord | AndroidViewUtils/src/main/java/com/azheng/viewutils/BitmapSaveUtils.kt:35-44 | the MediaStore record carries the generated name with the extension, the format's MIME type, and a "Pictures/" folder path exactly above API level 28 |
| BitmapSave.WebpFormatIsSavedAsWebp | AndroidViewUtils/src/main/java/com/azheng/viewutils/BitmapSaveUtils.kt:163-210 | the format getWebpFormat picks is saved as WEBP on every API level |
| BitmapSave.NewWebpVariantsFallBackBelowR | AndroidViewUtils/src/main/java/com/azheng/viewutils/BitmapSaveUtils.kt:163-192 | below API level 30 the lossy and lossless WEBP variants are saved with the JPEG type and extension |
| BitmapSave.ExtensionDecidesMimeType | AndroidViewUtils/src/main/java/com/azheng/viewutils/BitmapSaveUtils.kt:163-176 | every save uses one of three type and extension pairs, and equal extensions always come with equal MIME types |
| BitmapSave.StripExtensionRecoversName | AndroidViewUtils/src/main/java/com/azheng/viewutils/BitmapSaveUtils.kt:75-82 | removing the extension from a saved name gives back the caller's name |

## Left out

- Canvas and Path drawing: Bezier and arc construction, PathMeasure, trigonometric rotation, shaders and Paint objects. These are floating-point graphics calls. Only the values they are given are modelled.
- ValueAnimator timing and interpolation. This covers the diamond bar's `setProgressWithAnimation` (DiamondProgressBar.kt:1272-1294) and the frames of every animator. Only the start value, target and duration an animator is given are modelled.
- `invalidate()` and `requestLayout()` are recorded as flags where the source's choice between them matters (DashedLineView), and otherwise left out.
- XML attribute parsing with TypedArray in the views' `init` blocks. The constructors start from the source's declared defaults. CircleLoadingView's two default colours are read from colour resources, which are not part of this model, so its constructor takes them as parameters.
- DashedLineView's `onMeasure` (DashedLineView.kt:188-205) is a wrap-content size rule bound to MeasureSpec. It is not modelled.
- CircleLoadingView's lifecycle binding through a WeakReference is a framework callback. Only its effect, stopping on detach and on visibility loss, is modelled.
- Window, WindowInsetsController and Activity plumbing: EdgeToEdgeHelper, BaseEdgeActivity, SystemBarAdaptUtils, and the listener registration in InsetsStrategy.kt. None of these is part of this model.
- The WindowInsetsCompat type bits are defined by androidx, which is not part of this model. `Insets.GetInsetTypeMask` uses androidx's values: 1 for status bars, 2 for navigation bars, 8 for the IME and 128 for the display cutout. Its proofs rely only on these bits being distinct.
- SpanMatch.LowerChar lowercases ASCII letters only. Kotlin's `lowercase()` also maps other letters. A length-preserving per-character mapping is assumed either way, and the proofs do not depend on which letters it maps.
- BlockImage: only the resulting characters are modelled. The positions of the spans after the insertions are not modelled.
- Glide, BigImageViewer, ViewPager2 and Markwon themselves. A load is modelled as the request Glide would be given.
- `loadImageToBitmap` (ImageView.kt:137-150) is a coroutine around a blocking Glide call whose only logic is to pass on `toRequestOptions`. It is not modelled beyond that function.
- The default placeholder `ViewConstantUtils.imagePlaceholder` is not part of this model. It is a parameter.
- BitmapSaveUtils I/O: MediaStore insertion, output streams, bitmap compression, directory creation, and the error raised when external storage is unavailable. Only the record and the file name are modelled.
- `generateFileName` reads the clock. Its result is a parameter.
- ImageViewerActivity, ImagePagerAdapter, ExifImageViewFactory, CustomTextSizePlugin, ViewToImageUtils, Switch, ImageViewGrid and the demo app are not part of this model.
- PageTransformer.TransformPage: requires `minScale != 1`. At `minScale == 1` the Kotlin Float division in the alpha formula is 0/0 and yields NaN, which reals cannot express.
- PageTransformer.AlphaFor: requires `minScale != 1`, for the same reason.
- Indicator.DefaultIndicator.OnPageSelected: `position + 1` is unbounded. The 32-bit wrap-around of Kotlin `Int` at `Int.MAX_VALUE` is not modelled.
- ArcBar.ArcProgressBar.SetGradientColors and Diamond.DiamondProgressBar.SetGradientColors: the source stores the caller's `IntArray` of colours without copying it (ArcProgressBar.kt:437, DiamondProgressBar.kt:1130). In the arc bar, `apply` and `resetPendingParams` then share that one array between the pending and live colours (ArcProgressBar.kt:121, 202). A later change the caller makes to the array therefore reaches the committed gradient. The model holds the colours as a `seq` value, so it does not capture this sharing or in-place updates through it.
- Kotlin default arguments are not modelled as such. The model's methods take every argument explicitly: `animate` (default `diamondTiltSmooth`) in Diamond.DiamondProgressBar.SetTiltAngle and ResetTilt, `duration` (default 300) in ArcBar.ArcProgressBar.SetProgressWithAnimation, and `positions` (default null) in ArcBar.ArcProgressBar.SetGradientColors and Diamond.DiamondProgressBar.SetGradientColors. Passing the default value gives the source's behaviour.
- ArcBar.ArcProgressBar.SetProgressWithAnimation: a negative `duration` makes the framework's `ValueAnimator.setDuration` throw after the old animator has been cancelled. The model does not check the duration. CircleLoadingView's animation duration reaches the animator the same way, and that throw is not modelled there either.
- Kotlin `Float` rounding is not modelled. Reals are exact, so equalities such as the page transformer's symmetry hold exactly in the model and only approximately on a device.

## Findings

| source | as written | input that shows it | evidently intended | confidence | as-written member | corrected member |
|---|---|---|---|---|---|---|
| AndroidViewUtils/src/main/java/com/azheng/viewutils/DashedLineView.kt:68-85 | `lineWidth`, `dashWidth` and `dashGap` are initialised through `dp2px` (lines 68-70), which reads `displayMetrics.density`; but `displayMetrics` is declared, and so assigned, only at line 85, so the first `dp2px` dereferences a null field and construction throws | constructing the view with any context and any density | assign `displayMetrics` before the three dp conversions, so the defaults are 1, 4 and 2 dp converted at the screen density | not executed | Dashed.DeclaredOrderAlwaysFails | Dashed.CorrectedOrderConverts |
