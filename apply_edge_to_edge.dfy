/** The edge-to-edge extension functions: the Activity and Fragment entry points, and the
    per-view listeners that turn window insets into padding or a height. */
module EdgeExt {
  import opened KotlinStd
  import opened EdgeConfig
  import opened Insets

  /** An Activity, by identity. */
  datatype ActivityRef = ActivityRef(id: int)

  /** A call of `EdgeToEdgeHelper.apply(activity, config, contentView)`; what the helper
      then does to the window is not part of this model. */
  datatype HelperCall = HelperCall(activity: ActivityRef, config: Config, contentView: Option<ViewRef>)

  /** `Activity.applyEdgeToEdge(config, contentView)`, with `default()` as the default
      configuration. */
  function ActivityApply(activity: ActivityRef, config: Option<Config>, contentView: Option<ViewRef>): (call: HelperCall)
    ensures call.activity == activity && call.contentView == contentView
    ensures config.None? ==> call.config == DEFAULT
    ensures config.Some? ==> call.config == config.value
  {
    HelperCall(activity, config.GetOr(DEFAULT), contentView)
  }

  /** `Activity.applyEdgeToEdge { ... }`: the block runs on a fresh Builder; no content
      view is passed. */
  method ActivityApplyWithBuilder(activity: ActivityRef, block: seq<BuilderCall>) returns (call: HelperCall)
    ensures call == HelperCall(activity, Run(DEFAULT, block), None)
  {
    var config := BuildWith(block);
    call := HelperCall(activity, config, None);
  }

  /** `Fragment.applyEdgeToEdge`: a fragment not attached to an activity does nothing. */
  function FragmentApply(activity: Option<ActivityRef>, config: Option<Config>, contentView: Option<ViewRef>)
    : (call: Option<HelperCall>)
    ensures call.None? <==> activity.None?
    ensures call.Some? ==> call.value == ActivityApply(activity.value, config, contentView)
  {
    match activity
    case None => None
    case Some(a) => Some(ActivityApply(a, config, contentView))
  }

  /** The insets a dispatch carries, by type; how the framework derives them from the
      window is not part of this model. */
  datatype WindowInsets = WindowInsets(statusBars: Insets, navigationBars: Insets, systemBars: Insets, ime: Insets)

  /** `applyStatusBarPadding`'s listener: the top padding becomes the status-bar inset
      (replacing, not adding to, what was there). */
  method OnStatusBarInsets(view: View, insets: WindowInsets)
    modifies view`padding
    ensures view.padding == old(view.padding).(top := insets.statusBars.top)
  {
    view.padding := view.padding.(top := insets.statusBars.top);
  }

  /** `applyNavigationBarPadding`'s listener: the bottom padding becomes the navigation
      bar inset. */
  method OnNavigationBarInsets(view: View, insets: WindowInsets)
    modifies view`padding
    ensures view.padding == old(view.padding).(bottom := insets.navigationBars.bottom)
  {
    view.padding := view.padding.(bottom := insets.navigationBars.bottom);
  }

  /** `setHeightToStatusBar`'s listener: the layout height becomes the status-bar height. */
  method OnStatusBarHeightInsets(view: View, insets: WindowInsets)
    modifies view`layoutHeight
    ensures view.layoutHeight == insets.statusBars.top
  {
    view.layoutHeight := insets.statusBars.top;
  }

  /** `applySystemBarsPadding`: the padding at install time is captured by the listener. */
  class SystemBarsPaddingListener {
    const initialPadding: Insets

    constructor (view: View)
      ensures initialPadding == view.padding
    {
      initialPadding := view.padding;
    }

    /** Every side becomes its install-time padding plus the system-bar inset. */
    method OnApplyWindowInsets(view: View, insets: WindowInsets)
      modifies view`padding
      ensures view.padding == Offset(initialPadding, insets.systemBars, ALL_SIDES)
    {
      var systemBars := insets.systemBars;
      view.padding := Insets(initialPadding.left + systemBars.left, initialPadding.top + systemBars.top,
                             initialPadding.right + systemBars.right, initialPadding.bottom + systemBars.bottom);
    }
  }

  /** `applyImePadding`: the bottom padding at install time is captured by the listener. */
  class ImePaddingListener {
    const initialPaddingBottom: int

    constructor (view: View)
      ensures initialPaddingBottom == view.padding.bottom
    {
      initialPaddingBottom := view.padding.bottom;
    }

    /** The bottom padding becomes the install-time bottom plus the larger of the IME and
        navigation-bar bottoms; the other sides are untouched. */
    method OnApplyWindowInsets(view: View, insets: WindowInsets)
      modifies view`padding
      ensures view.padding == old(view.padding).(bottom := initialPaddingBottom + ImeBottom(insets))
    {
      var bottomPadding := MaxInt(insets.ime.bottom, insets.navigationBars.bottom);
      view.padding := view.padding.(bottom := initialPaddingBottom + bottomPadding);
    }
  }

  /** The extra bottom space `applyImePadding` reserves: the keyboard when it is taller
      than the navigation bar, the navigation bar otherwise. */
  function ImeBottom(insets: WindowInsets): (b: int)
    ensures b >= insets.ime.bottom && b >= insets.navigationBars.bottom
    ensures b == insets.ime.bottom || b == insets.navigationBars.bottom
  {
    MaxInt(insets.ime.bottom, insets.navigationBars.bottom)
  }

  // ------------------------------------------------------------ lemmas

  /** Two dispatches through the system-bars listener, with any padding edit in between,
      leave the same padding as one: the offset is always taken from the install-time
      padding, so insets never accumulate. */
  method SystemBarsDispatchTwice(view: View, first: WindowInsets, edited: Insets, second: WindowInsets)
    returns (listener: SystemBarsPaddingListener)
    modifies view`padding
    ensures listener.initialPadding == old(view.padding)
    ensures second.systemBars == first.systemBars ==>
      view.padding == Offset(old(view.padding), first.systemBars, ALL_SIDES)
  {
    listener := new SystemBarsPaddingListener(view);
    listener.OnApplyWindowInsets(view, first);
    view.padding := edited;
    listener.OnApplyWindowInsets(view, second);
  }
}
