/** EdgeToEdgeConfig: the immutable edge-to-edge settings and the Builder that assembles
    them one setter call at a time. */
module EdgeConfig {
  import opened KotlinStd
  import opened Graphics

  /** A reference to a view the caller hands in (compared by identity). */
  datatype ViewRef = ViewRef(id: int)

  datatype Config = Config(
    isEnabled: bool,
    isStatusBarTransparent: bool, isNavigationBarTransparent: bool,
    statusBarColor: int, navigationBarColor: int,
    isLightStatusBar: bool, isLightNavigationBar: bool,
    fitStatusBar: bool, fitNavigationBar: bool, fitIme: bool, fitDisplayCutout: bool,
    paddingView: Option<ViewRef>, marginView: Option<ViewRef>)

  /** What a fresh Builder holds: enabled, both bars transparent with light icons, fit
      status bar, navigation bar and cutout but not the IME, no padding or margin view. */
  const DEFAULT: Config := Config(true, true, true, TRANSPARENT, TRANSPARENT, true, true,
                                  true, true, false, true, None, None)

  /** One call on the Builder, as it appears in a configuration block. */
  datatype BuilderCall =
    | Enabled(enabled: bool)
    | StatusBarTransparent(transparent: bool)
    | NavigationBarTransparent(transparent: bool)
    | StatusBarColor(color: int)
    | NavigationBarColor(color: int)
    | LightStatusBar(light: bool)
    | LightNavigationBar(light: bool)
    | FitStatusBar(fit: bool)
    | FitNavigationBar(fit: bool)
    | FitIme(fit: bool)
    | FitDisplayCutout(fit: bool)
    | PaddingView(view: Option<ViewRef>)
    | MarginView(view: Option<ViewRef>)

  /** The effect of one Builder call on the settings it would build. A colour setter also
      derives the bar's transparency from the colour. */
  function Step(c: Config, call: BuilderCall): (r: Config)
    ensures call.StatusBarColor? ==>
      r == c.(statusBarColor := call.color, isStatusBarTransparent := call.color == TRANSPARENT)
    ensures call.NavigationBarColor? ==>
      r == c.(navigationBarColor := call.color, isNavigationBarTransparent := call.color == TRANSPARENT)
    ensures !call.StatusBarColor? && !call.StatusBarTransparent? ==>
      r.statusBarColor == c.statusBarColor && r.isStatusBarTransparent == c.isStatusBarTransparent
    ensures !call.NavigationBarColor? && !call.NavigationBarTransparent? ==>
      r.navigationBarColor == c.navigationBarColor && r.isNavigationBarTransparent == c.isNavigationBarTransparent
  {
    match call
    case Enabled(b) => c.(isEnabled := b)
    case StatusBarTransparent(b) => c.(isStatusBarTransparent := b)
    case NavigationBarTransparent(b) => c.(isNavigationBarTransparent := b)
    case StatusBarColor(color) => c.(statusBarColor := color, isStatusBarTransparent := color == TRANSPARENT)
    case NavigationBarColor(color) => c.(navigationBarColor := color, isNavigationBarTransparent := color == TRANSPARENT)
    case LightStatusBar(b) => c.(isLightStatusBar := b)
    case LightNavigationBar(b) => c.(isLightNavigationBar := b)
    case FitStatusBar(b) => c.(fitStatusBar := b)
    case FitNavigationBar(b) => c.(fitNavigationBar := b)
    case FitIme(b) => c.(fitIme := b)
    case FitDisplayCutout(b) => c.(fitDisplayCutout := b)
    case PaddingView(v) => c.(paddingView := v)
    case MarginView(v) => c.(marginView := v)
  }

  /** The settings after a block of Builder calls, applied left to right. */
  function Run(c: Config, calls: seq<BuilderCall>): Config
    decreases |calls|
  {
    if calls == [] then c else Step(Run(c, calls[..|calls| - 1]), calls[|calls| - 1])
  }

  /** Whether a call writes one of the fit flags. */
  predicate WritesFit(call: BuilderCall) {
    call.FitStatusBar? || call.FitNavigationBar? || call.FitIme? || call.FitDisplayCutout?
  }

  /** `EdgeToEdgeConfig.Builder`. */
  class Builder {
    var isEnabled: bool
    var isStatusBarTransparent: bool
    var isNavigationBarTransparent: bool
    var statusBarColor: int
    var navigationBarColor: int
    var isLightStatusBar: bool
    var isLightNavigationBar: bool
    var fitStatusBar: bool
    var fitNavigationBar: bool
    var fitIme: bool
    var fitDisplayCutout: bool
    var paddingView: Option<ViewRef>
    var marginView: Option<ViewRef>

    /** The settings `build()` would return now. */
    function Current(): Config
      reads this
    {
      Config(isEnabled, isStatusBarTransparent, isNavigationBarTransparent,
             statusBarColor, navigationBarColor, isLightStatusBar, isLightNavigationBar,
             fitStatusBar, fitNavigationBar, fitIme, fitDisplayCutout, paddingView, marginView)
    }

    constructor ()
      ensures Current() == DEFAULT
    {
      isEnabled := true;
      isStatusBarTransparent := true;
      isNavigationBarTransparent := true;
      statusBarColor := TRANSPARENT;
      navigationBarColor := TRANSPARENT;
      isLightStatusBar := true;
      isLightNavigationBar := true;
      fitStatusBar := true;
      fitNavigationBar := true;
      fitIme := false;
      fitDisplayCutout := true;
      paddingView := None;
      marginView := None;
    }

    method SetEnabled(enabled: bool)
      modifies this`isEnabled
      ensures Current() == old(Current()).(isEnabled := enabled)
    {
      isEnabled := enabled;
    }

    method SetStatusBarTransparent(transparent: bool)
      modifies this`isStatusBarTransparent
      ensures Current() == old(Current()).(isStatusBarTransparent := transparent)
    {
      isStatusBarTransparent := transparent;
    }

    method SetNavigationBarTransparent(transparent: bool)
      modifies this`isNavigationBarTransparent
      ensures Current() == old(Current()).(isNavigationBarTransparent := transparent)
    {
      isNavigationBarTransparent := transparent;
    }

    /** `statusBarColor`: the bar is transparent exactly when the colour is TRANSPARENT. */
    method SetStatusBarColor(color: int)
      modifies this`statusBarColor, this`isStatusBarTransparent
      ensures Current() == old(Current()).(statusBarColor := color, isStatusBarTransparent := color == TRANSPARENT)
    {
      statusBarColor := color;
      isStatusBarTransparent := color == TRANSPARENT;
    }

    /** `navigationBarColor`: the same rule for the navigation bar. */
    method SetNavigationBarColor(color: int)
      modifies this`navigationBarColor, this`isNavigationBarTransparent
      ensures Current() == old(Current()).(navigationBarColor := color, isNavigationBarTransparent := color == TRANSPARENT)
    {
      navigationBarColor := color;
      isNavigationBarTransparent := color == TRANSPARENT;
    }

    method SetLightStatusBar(light: bool)
      modifies this`isLightStatusBar
      ensures Current() == old(Current()).(isLightStatusBar := light)
    {
      isLightStatusBar := light;
    }

    method SetLightNavigationBar(light: bool)
      modifies this`isLightNavigationBar
      ensures Current() == old(Current()).(isLightNavigationBar := light)
    {
      isLightNavigationBar := light;
    }

    method SetFitStatusBar(fit: bool)
      modifies this`fitStatusBar
      ensures Current() == old(Current()).(fitStatusBar := fit)
    {
      fitStatusBar := fit;
    }

    method SetFitNavigationBar(fit: bool)
      modifies this`fitNavigationBar
      ensures Current() == old(Current()).(fitNavigationBar := fit)
    {
      fitNavigationBar := fit;
    }

    method SetFitIme(fit: bool)
      modifies this`fitIme
      ensures Current() == old(Current()).(fitIme := fit)
    {
      fitIme := fit;
    }

    method SetFitDisplayCutout(fit: bool)
      modifies this`fitDisplayCutout
      ensures Current() == old(Current()).(fitDisplayCutout := fit)
    {
      fitDisplayCutout := fit;
    }

    method SetPaddingView(view: Option<ViewRef>)
      modifies this`paddingView
      ensures Current() == old(Current()).(paddingView := view)
    {
      paddingView := view;
    }

    method SetMarginView(view: Option<ViewRef>)
      modifies this`marginView
      ensures Current() == old(Current()).(marginView := view)
    {
      marginView := view;
    }

    /** Dispatches one call of a configuration block to its setter. */
    method Call(call: BuilderCall)
      modifies this
      ensures Current() == Step(old(Current()), call)
    {
      match call
      case Enabled(b) => SetEnabled(b);
      case StatusBarTransparent(b) => SetStatusBarTransparent(b);
      case NavigationBarTransparent(b) => SetNavigationBarTransparent(b);
      case StatusBarColor(color) => SetStatusBarColor(color);
      case NavigationBarColor(color) => SetNavigationBarColor(color);
      case LightStatusBar(b) => SetLightStatusBar(b);
      case LightNavigationBar(b) => SetLightNavigationBar(b);
      case FitStatusBar(b) => SetFitStatusBar(b);
      case FitNavigationBar(b) => SetFitNavigationBar(b);
      case FitIme(b) => SetFitIme(b);
      case FitDisplayCutout(b) => SetFitDisplayCutout(b);
      case PaddingView(v) => SetPaddingView(v);
      case MarginView(v) => SetMarginView(v);
    }

    /** `build()`: every Builder field is copied unchanged. */
    method Build() returns (c: Config)
      ensures c == Current()
      ensures c.statusBarColor == statusBarColor && c.isStatusBarTransparent == isStatusBarTransparent
      ensures c.fitStatusBar == fitStatusBar && c.fitNavigationBar == fitNavigationBar
      ensures c.fitIme == fitIme && c.fitDisplayCutout == fitDisplayCutout
      ensures c.paddingView == paddingView && c.marginView == marginView
    {
      c := Config(isEnabled, isStatusBarTransparent, isNavigationBarTransparent,
                  statusBarColor, navigationBarColor, isLightStatusBar, isLightNavigationBar,
                  fitStatusBar, fitNavigationBar, fitIme, fitDisplayCutout, paddingView, marginView);
    }
  }

  /** `Builder().apply(block).build()`: a fresh Builder, the block's calls in order, then
      `build()`. */
  method BuildWith(calls: seq<BuilderCall>) returns (c: Config)
    ensures c == Run(DEFAULT, calls)
  {
    var b := new Builder();
    var i := 0;
    while i < |calls|
      invariant 0 <= i <= |calls|
      invariant b.Current() == Run(DEFAULT, calls[..i])
    {
      assert calls[..i + 1][..i] == calls[..i];
      b.Call(calls[i]);
      i := i + 1;
    }
    assert calls[..|calls|] == calls;
    c := b.Build();
  }

  /** `EdgeToEdgeConfig.default()`. */
  method Default() returns (c: Config)
    ensures c == DEFAULT
  {
    var b := new Builder();
    c := b.Build();
  }

  /** `EdgeToEdgeConfig.immersive()`: the default with neither bar fitted. */
  method Immersive() returns (c: Config)
    ensures c == DEFAULT.(fitStatusBar := false, fitNavigationBar := false)
    ensures c.isStatusBarTransparent && c.isNavigationBarTransparent && c.fitDisplayCutout
  {
    var b := new Builder();
    b.SetFitStatusBar(false);
    b.SetFitNavigationBar(false);
    c := b.Build();
  }

  /** `EdgeToEdgeConfig.transparentStatusBar()`: a white, opaque navigation bar under a
      still transparent status bar. */
  method TransparentStatusBarPreset() returns (c: Config)
    ensures c == DEFAULT.(isNavigationBarTransparent := false, navigationBarColor := WHITE)
    ensures c.isStatusBarTransparent && !c.isNavigationBarTransparent
  {
    var b := new Builder();
    b.SetNavigationBarTransparent(false);
    b.SetNavigationBarColor(WHITE);
    c := b.Build();
  }

  // ---------------------------------------------------------- lemmas

  /** Running a block and then one more call is that call applied to the block's result. */
  lemma RunSnoc(c: Config, calls: seq<BuilderCall>, call: BuilderCall)
    ensures Run(c, calls + [call]) == Step(Run(c, calls), call)
  {
    assert (calls + [call])[..|calls|] == calls;
  }

  /** Setters are last-write-wins: a `statusBarTransparent` call after `statusBarColor`
      overrides the transparency the colour implied, and keeps the colour. */
  lemma TransparentAfterColorOverrides(c: Config, color: int, transparent: bool)
    ensures Run(c, [StatusBarColor(color), StatusBarTransparent(transparent)]).isStatusBarTransparent == transparent
    ensures Run(c, [StatusBarColor(color), StatusBarTransparent(transparent)]).statusBarColor == color
  {
    assert [StatusBarColor(color), StatusBarTransparent(transparent)][..1] == [StatusBarColor(color)];
    assert [StatusBarColor(color)][..0] == [];
  }

  /** ... and a colour after the transparency flag re-derives it from the colour. */
  lemma ColorAfterTransparentRederives(c: Config, color: int, transparent: bool)
    ensures Run(c, [StatusBarTransparent(transparent), StatusBarColor(color)]).isStatusBarTransparent
            == (color == TRANSPARENT)
  {
    assert [StatusBarTransparent(transparent), StatusBarColor(color)][..1] == [StatusBarTransparent(transparent)];
  }

  /** A block without fit calls leaves the four fit flags as they were. */
  lemma {:induction false} FitFlagsOnlyFromFitCalls(c: Config, calls: seq<BuilderCall>)
    requires forall i :: 0 <= i < |calls| ==> !WritesFit(calls[i])
    ensures Run(c, calls).fitStatusBar == c.fitStatusBar
    ensures Run(c, calls).fitNavigationBar == c.fitNavigationBar
    ensures Run(c, calls).fitIme == c.fitIme
    ensures Run(c, calls).fitDisplayCutout == c.fitDisplayCutout
    decreases |calls|
  {
    if calls != [] {
      var init := calls[..|calls| - 1];
      assert forall i :: 0 <= i < |init| ==> init[i] == calls[i];
      FitFlagsOnlyFromFitCalls(c, init);
      StepKeepsFitFlags(Run(c, init), calls[|calls| - 1]);
    }
  }

  lemma StepKeepsFitFlags(c: Config, call: BuilderCall)
    requires !WritesFit(call)
    ensures Step(c, call).fitStatusBar == c.fitStatusBar && Step(c, call).fitNavigationBar == c.fitNavigationBar
    ensures Step(c, call).fitIme == c.fitIme && Step(c, call).fitDisplayCutout == c.fitDisplayCutout
  {
    match call
    case Enabled(_) =>
    case StatusBarTransparent(_) =>
    case NavigationBarTransparent(_) =>
    case StatusBarColor(_) =>
    case NavigationBarColor(_) =>
    case LightStatusBar(_) =>
    case LightNavigationBar(_) =>
    case PaddingView(_) =>
    case MarginView(_) =>
  }

  /** The last colour call on a bar decides its transparency, whatever came before, as
      long as no explicit transparency call follows it. */
  lemma {:induction false} LastStatusColorDecides(c: Config, calls: seq<BuilderCall>, color: int, rest: seq<BuilderCall>)
    requires forall i :: 0 <= i < |rest| ==> !rest[i].StatusBarColor? && !rest[i].StatusBarTransparent?
    ensures Run(c, calls + [StatusBarColor(color)] + rest).statusBarColor == color
    ensures Run(c, calls + [StatusBarColor(color)] + rest).isStatusBarTransparent == (color == TRANSPARENT)
    decreases |rest|
  {
    if rest == [] {
      assert calls + [StatusBarColor(color)] + rest == calls + [StatusBarColor(color)];
      RunSnoc(c, calls, StatusBarColor(color));
    } else {
      var init := rest[..|rest| - 1];
      var last := rest[|rest| - 1];
      assert forall i :: 0 <= i < |init| ==> init[i] == rest[i];
      LastStatusColorDecides(c, calls, color, init);
      assert calls + [StatusBarColor(color)] + rest == (calls + [StatusBarColor(color)] + init) + [last];
      RunSnoc(c, calls + [StatusBarColor(color)] + init, last);
    }
  }
}
