/** The image viewer's entry point: a one-time initialisation flag, a Builder whose
    setters record the viewer's options, and `show`, which validates them and produces
    the configuration and launch options the viewer activity is started with. */
module Viewer {
  import opened KotlinStd
  import opened Graphics

  /** `IndicatorStyle`. */
  datatype IndicatorStyle = TEXT | DOT | NONE

  /** `android.R.anim.fade_in` and `android.R.anim.fade_out`. */
  const FADE_IN: int := 0x010a_0000
  const FADE_OUT: int := 0x010a_0001

  /** `0xFF000000.toInt()`: opaque black. */
  const BLACK: int := Argb(0xFF00_0000)

  /** The transition name used when a shared element is given without one. */
  const DEFAULT_TRANSITION_NAME: string := "image_transition"

  /** `ViewerConfig`, the serialisable configuration handed to the viewer activity. */
  datatype ViewerConfig = ViewerConfig(
    imageUrls: seq<string>,
    startPosition: int,
    backgroundColor: int,
    showIndicator: bool,
    indicatorStyle: IndicatorStyle,
    enableSwipeToDismiss: bool,
    clickToClose: bool,
    enableZoom: bool,
    animDuration: int,
    enablePageTransformer: bool,
    enterAnim: int,
    exitAnim: int,
    useActivityOptions: bool)

  /** `ViewerConfig()` with every parameter left at its default. */
  const DEFAULT_CONFIG: ViewerConfig :=
    ViewerConfig([], 0, BLACK, true, TEXT, true, true, true, 300, false, FADE_IN, FADE_OUT, true)

  /** The context a Builder is created with; only whether it is an Activity matters. */
  datatype Context = Context(id: int, isActivity: bool)

  /** A view passed to the animation setters, with its measured size. */
  datatype SourceView = SourceView(id: int, width: nat, height: nat)

  /** A custom indicator and a callback, by identity. */
  datatype IndicatorRef = IndicatorRef(id: int)
  datatype CallbackRef = CallbackRef(id: int)

  /** `ActivityOptionsCompat` values the Builder can hold: one of the two made from a
      source view, or one supplied by the caller. */
  datatype ActivityOptions =
    | ScaleUp(view: SourceView, startX: int, startY: int, width: int, height: int)
    | ClipReveal(view: SourceView, centerX: int, centerY: int, width: int, height: int)
    | Supplied(id: int)

  /** The options bundle the activity is started with. */
  datatype LaunchOptions =
    | FromActivityOptions(options: ActivityOptions)
    | SceneTransition(activity: Context, view: SourceView, transitionName: string)

  /** `ImageViewerActivity.start(context, config, options)`, together with the callback and
      custom indicator `show` stores in the activity's companion just before. */
  datatype Launch = Launch(
    context: Context,
    config: ViewerConfig,
    options: Option<LaunchOptions>,
    callback: Option<CallbackRef>,
    customIndicator: Option<IndicatorRef>)

  /** What `show` does: throw IllegalArgumentException, or start the viewer. */
  datatype ShowOutcome = IllegalArgument | Started(launch: Launch)

  /** The `when` in `show` choosing the launch options: explicit activity options win;
      otherwise a shared-element transition, when one was requested with a view and the
      context is an Activity, named "image_transition" unless a name was given; otherwise
      none. */
  function ChooseOptions(activityOptions: Option<ActivityOptions>, useSharedElement: bool,
                         sharedElementView: Option<SourceView>, sharedElementName: Option<string>,
                         context: Context): (o: Option<LaunchOptions>)
    ensures activityOptions.Some? ==> o == Some(FromActivityOptions(activityOptions.value))
    ensures activityOptions.None? ==>
      (o.Some? <==> useSharedElement && sharedElementView.Some? && context.isActivity)
    ensures activityOptions.None? && o.Some? ==>
      o.value.SceneTransition? && o.value.activity == context && o.value.view == sharedElementView.value
    ensures activityOptions.None? && o.Some? && sharedElementName.None? ==>
      o.value.transitionName == DEFAULT_TRANSITION_NAME
    ensures activityOptions.None? && o.Some? && sharedElementName.Some? ==>
      o.value.transitionName == sharedElementName.value
  {
    if activityOptions.Some? then Some(FromActivityOptions(activityOptions.value))
    else if useSharedElement && sharedElementView.Some? && context.isActivity then
      Some(SceneTransition(context, sharedElementView.value, sharedElementName.GetOr(DEFAULT_TRANSITION_NAME)))
    else None
  }

  /** `ImageViewer.Builder`. */
  class Builder {
    const context: Context

    var imageUrls: seq<string>
    var startPosition: int
    var backgroundColor: int
    var showIndicator: bool
    var indicatorStyle: IndicatorStyle
    var customIndicator: Option<IndicatorRef>

    var enableSwipeToDismiss: bool
    var clickToClose: bool
    var enableZoom: bool

    /** Declared `var` in the source, but no setter assigns them. */
    const enablePageTransformer: bool := false
    const animDuration: int := 300

    var callback: Option<CallbackRef>

    var enterAnim: int
    var exitAnim: int
    var activityOptions: Option<ActivityOptions>
    var useSharedElement: bool
    var sharedElementView: Option<SourceView>
    var sharedElementName: Option<string>

    /** The field initialisers. */
    constructor (context: Context)
      ensures this.context == context
      ensures imageUrls == [] && startPosition == 0
      ensures backgroundColor == BLACK && showIndicator && indicatorStyle == TEXT && customIndicator.None?
      ensures enableSwipeToDismiss && clickToClose && enableZoom
      ensures callback.None? && enterAnim == FADE_IN && exitAnim == FADE_OUT
      ensures activityOptions.None? && !useSharedElement
      ensures sharedElementView.None? && sharedElementName.None?
    {
      this.context := context;
      imageUrls := [];
      startPosition := 0;
      backgroundColor := BLACK;
      showIndicator := true;
      indicatorStyle := TEXT;
      customIndicator := None;
      enableSwipeToDismiss := true;
      clickToClose := true;
      enableZoom := true;
      callback := None;
      enterAnim := FADE_IN;
      exitAnim := FADE_OUT;
      activityOptions := None;
      useSharedElement := false;
      sharedElementView := None;
      sharedElementName := None;
    }

    // ---------------------------------------------------------- image data

    /** `setImage(url)`: the list becomes exactly `[url]`. */
    method SetImage(url: string)
      modifies this`imageUrls
      ensures imageUrls == [url]
    {
      imageUrls := [];
      imageUrls := imageUrls + [url];
    }

    /** `setImages(urls)` (both overloads): the list becomes exactly `urls`, whatever it held. */
    method SetImages(urls: seq<string>)
      modifies this`imageUrls
      ensures imageUrls == urls
    {
      imageUrls := [];
      imageUrls := imageUrls + urls;
    }

    method SetStartPosition(position: int)
      modifies this`startPosition
      ensures startPosition == position
    {
      startPosition := position;
    }

    // ---------------------------------------------------------- UI

    method SetBackgroundColor(color: int)
      modifies this`backgroundColor
      ensures backgroundColor == color
    {
      backgroundColor := color;
    }

    method ShowIndicator(show: bool)
      modifies this`showIndicator
      ensures showIndicator == show
    {
      showIndicator := show;
    }

    method SetIndicatorStyle(style: IndicatorStyle)
      modifies this`indicatorStyle
      ensures indicatorStyle == style
    {
      indicatorStyle := style;
    }

    method SetCustomIndicator(indicator: IndicatorRef)
      modifies this`customIndicator
      ensures customIndicator == Some(indicator)
    {
      customIndicator := Some(indicator);
    }

    // ---------------------------------------------------------- behaviour

    method SetClickToClose(enable: bool)
      modifies this`clickToClose
      ensures clickToClose == enable
    {
      clickToClose := enable;
    }

    method SetSwipeToDismiss(enable: bool)
      modifies this`enableSwipeToDismiss
      ensures enableSwipeToDismiss == enable
    {
      enableSwipeToDismiss := enable;
    }

    method SetEnableZoom(enable: bool)
      modifies this`enableZoom
      ensures enableZoom == enable
    {
      enableZoom := enable;
    }

    // ---------------------------------------------------------- animation

    method SetEnterAnim(anim: int)
      modifies this`enterAnim
      ensures enterAnim == anim
    {
      enterAnim := anim;
    }

    method SetExitAnim(anim: int)
      modifies this`exitAnim
      ensures exitAnim == anim
    {
      exitAnim := anim;
    }

    /** `setAnimation(enter, exit)`: both at once. */
    method SetAnimation(enterAnim: int, exitAnim: int)
      modifies this`enterAnim, this`exitAnim
      ensures this.enterAnim == enterAnim && this.exitAnim == exitAnim
    {
      this.enterAnim := enterAnim;
      this.exitAnim := exitAnim;
    }

    method SetActivityOptions(options: ActivityOptions)
      modifies this`activityOptions
      ensures activityOptions == Some(options)
    {
      activityOptions := Some(options);
    }

    /** `setSharedElement(view, name)`: requests the transition and records both. */
    method SetSharedElement(view: SourceView, transitionName: string)
      modifies this`useSharedElement, this`sharedElementView, this`sharedElementName
      ensures useSharedElement && sharedElementView == Some(view) && sharedElementName == Some(transitionName)
    {
      useSharedElement := true;
      sharedElementView := Some(view);
      sharedElementName := Some(transitionName);
    }

    /** `setScaleAnimation(view)`: a scale-up from the view's whole bounds, but only from an
        Activity context; otherwise nothing changes. */
    method SetScaleAnimation(sourceView: SourceView)
      modifies this`activityOptions
      ensures context.isActivity ==>
        activityOptions == Some(ScaleUp(sourceView, 0, 0, sourceView.width, sourceView.height))
      ensures !context.isActivity ==> activityOptions == old(activityOptions)
    {
      if context.isActivity {
        activityOptions := Some(ScaleUp(sourceView, 0, 0, sourceView.width, sourceView.height));
      }
    }

    /** `setClipRevealAnimation(view)`: a reveal from the view's centre, only from an
        Activity context on API level 23 (M) or later; otherwise nothing changes. */
    method SetClipRevealAnimation(sourceView: SourceView, sdkInt: int)
      modifies this`activityOptions
      ensures context.isActivity && sdkInt >= 23 ==>
        activityOptions.Some? && activityOptions.value.ClipReveal?
        && activityOptions.value.view == sourceView
        && 2 * activityOptions.value.centerX <= sourceView.width < 2 * activityOptions.value.centerX + 2
        && 2 * activityOptions.value.centerY <= sourceView.height < 2 * activityOptions.value.centerY + 2
        && activityOptions.value.width == 0 && activityOptions.value.height == 0
      ensures !(context.isActivity && sdkInt >= 23) ==> activityOptions == old(activityOptions)
    {
      if context.isActivity && sdkInt >= 23 {
        activityOptions := Some(ClipReveal(sourceView, sourceView.width / 2, sourceView.height / 2, 0, 0));
      }
    }

    /** `disableAnimation()`: no enter and no exit animation. */
    method DisableAnimation()
      modifies this`enterAnim, this`exitAnim
      ensures enterAnim == 0 && exitAnim == 0
    {
      enterAnim := 0;
      exitAnim := 0;
    }

    method SetCallback(callback: CallbackRef)
      modifies this`callback
      ensures this.callback == Some(callback)
    {
      this.callback := Some(callback);
    }

    // ---------------------------------------------------------- show

    /** `show()`: an empty URL list throws; otherwise the viewer starts with a copy of
        every setting, the start position clamped to a valid index, the page transformer
        off, a 300 ms animation, and the options `ChooseOptions` picks. */
    method Show() returns (outcome: ShowOutcome)
      ensures outcome.IllegalArgument? <==> imageUrls == []
      ensures outcome.Started? ==>
        var launch := outcome.launch;
        var config := launch.config;
        launch.context == context
        && config.imageUrls == imageUrls
        && 0 <= config.startPosition < |imageUrls|
        && (0 <= startPosition < |imageUrls| ==> config.startPosition == startPosition)
        && (startPosition < 0 ==> config.startPosition == 0)
        && (startPosition >= |imageUrls| ==> config.startPosition == |imageUrls| - 1)
        && config.backgroundColor == backgroundColor
        && config.showIndicator == showIndicator && config.indicatorStyle == indicatorStyle
        && config.enableSwipeToDismiss == enableSwipeToDismiss
        && config.clickToClose == clickToClose && config.enableZoom == enableZoom
        && !config.enablePageTransformer && config.animDuration == 300
        && config.enterAnim == enterAnim && config.exitAnim == exitAnim
        && config.useActivityOptions
        && launch.options == ChooseOptions(activityOptions, useSharedElement, sharedElementView,
                                           sharedElementName, context)
        && launch.callback == callback && launch.customIndicator == customIndicator
    {
      if |imageUrls| == 0 {
        return IllegalArgument;
      }
      var config := ViewerConfig(
        imageUrls,
        ClampInt(startPosition, 0, |imageUrls| - 1),
        backgroundColor,
        showIndicator,
        indicatorStyle,
        enableSwipeToDismiss,
        clickToClose,
        enableZoom,
        animDuration,
        enablePageTransformer,
        enterAnim,
        exitAnim,
        true);
      var options := ChooseOptions(activityOptions, useSharedElement, sharedElementView,
                                   sharedElementName, context);
      outcome := Started(Launch(context, config, options, callback, customIndicator));
    }
  }

  /** The companion object's state: whether `init` has run, and how often it initialised
      the image loader. */
  class ImageViewer {
    var isInitialized: bool
    var loaderInitialisations: nat

    constructor ()
      ensures !isInitialized && loaderInitialisations == 0
    {
      isInitialized := false;
      loaderInitialisations := 0;
    }

    /** `init(application)`: initialises the loader the first time only. */
    method Init()
      modifies this
      ensures isInitialized
      ensures loaderInitialisations == old(loaderInitialisations) + (if old(isInitialized) then 0 else 1)
    {
      if !isInitialized {
        loaderInitialisations := loaderInitialisations + 1;
        isInitialized := true;
      }
    }

    /** `with(context)`: fails (IllegalStateException from `check`) unless initialised;
        otherwise a fresh Builder with the defaults. */
    method With(context: Context) returns (builder: Option<Builder>)
      ensures builder.None? <==> !isInitialized
      ensures builder.Some? ==>
        fresh(builder.value) && builder.value.context == context
        && builder.value.imageUrls == [] && builder.value.startPosition == 0
        && builder.value.activityOptions.None? && !builder.value.useSharedElement
    {
      if !isInitialized {
        return None;
      }
      var b := new Builder(context);
      builder := Some(b);
    }
  }

  // ------------------------------------------------------------ scenarios

  /** However often `init` is called, the loader is initialised once and `with` then
      succeeds. */
  method InitTwiceInitialisesOnce(context: Context) returns (initialisations: nat, created: bool)
    ensures initialisations == 1 && created
  {
    var viewer := new ImageViewer();
    viewer.Init();
    viewer.Init();
    var builder := viewer.With(context);
    initialisations := viewer.loaderInitialisations;
    created := builder.Some?;
  }

  /** `with` before `init` fails. */
  method WithBeforeInitFails(context: Context) returns (created: bool)
    ensures !created
  {
    var viewer := new ImageViewer();
    var builder := viewer.With(context);
    created := builder.Some?;
  }

  /** The Builder's defaults agree with `ViewerConfig`'s own: showing a single image with
      no other setter called starts with the default configuration holding that image. */
  method SingleImageUsesConfigDefaults(context: Context, url: string) returns (outcome: ShowOutcome)
    ensures outcome == Started(Launch(context, DEFAULT_CONFIG.(imageUrls := [url]), None, None, None))
  {
    var builder := new Builder(context);
    builder.SetImage(url);
    outcome := builder.Show();
  }

  /** The last list set wins: `setImages` after `setImage` discards the earlier image, and
      the start position is clamped into the new list. */
  method LastImageListWins(context: Context, first: string, urls: seq<string>, position: int)
    returns (outcome: ShowOutcome)
    requires urls != []
    ensures outcome.Started? && outcome.launch.config.imageUrls == urls
    ensures outcome.launch.config.startPosition == ClampInt(position, 0, |urls| - 1)
  {
    var builder := new Builder(context);
    builder.SetImage(first);
    builder.SetStartPosition(position);
    builder.SetImages(urls);
    outcome := builder.Show();
  }
}
