/** The ImageView loading extensions: a load configuration is turned into an ordered list
    of bitmap transformations and request options, and loading is skipped when the view's
    activity is going away. The image library itself is not modelled: a load is the
    request it would be given. */
module ImageLoad {
  import opened KotlinStd

  /** `DiskCacheStrategy`. */
  datatype DiskCacheStrategy = ALL | NONE | DATA | RESOURCE | AUTOMATIC

  /** `ImageLoadConfig`. The default placeholder resource is a value of the library's
      constants object, which is not part of this model: it is passed in wherever the
      source uses it. */
  datatype ImageLoadConfig = ImageLoadConfig(
    isRound: bool,
    radius: int,
    blurRadius: int,
    sampling: int,
    showPlaceholder: bool,
    placeholderRes: int,
    cacheStrategy: DiskCacheStrategy,
    thumbnailSize: real,
    applyCenterCrop: bool)

  /** `ImageLoadConfig()` with every parameter at its default. */
  function DefaultConfig(defaultPlaceholder: int): ImageLoadConfig {
    ImageLoadConfig(false, 0, 0, 1, false, defaultPlaceholder, ALL, 0.0, true)
  }

  /** The bitmap transformations the configuration can ask for. */
  datatype Transformation =
    | CenterCrop
    | CircleCrop
    | RoundedCorners(radius: int, margin: int)
    | Blur(radius: int, sampling: int)

  predicate IsShape(t: Transformation) {
    t.CircleCrop? || t.RoundedCorners?
  }

  /** `buildTransformations`: optionally a centre crop, then at most one shape (a circle
      wins over rounded corners), then optionally a blur. */
  function BuildTransformations(c: ImageLoadConfig): (ts: seq<Transformation>)
    ensures |ts| == (if c.applyCenterCrop then 1 else 0)
                   + (if c.isRound || c.radius > 0 then 1 else 0)
                   + (if c.blurRadius > 0 then 1 else 0)
    ensures (|ts| > 0 && ts[0] == CenterCrop) <==> c.applyCenterCrop
    ensures CircleCrop in ts <==> c.isRound
    ensures RoundedCorners(c.radius, 0) in ts <==> !c.isRound && c.radius > 0
    ensures forall i, j :: 0 <= i < j < |ts| && IsShape(ts[i]) ==> !IsShape(ts[j])
    ensures forall i :: 0 <= i < |ts| && ts[i].RoundedCorners? ==> ts[i] == RoundedCorners(c.radius, 0)
    ensures (|ts| > 0 && ts[|ts| - 1].Blur?) <==> c.blurRadius > 0
    ensures c.blurRadius > 0 ==> ts[|ts| - 1] == Blur(c.blurRadius, c.sampling)
    ensures forall i :: 0 <= i < |ts| - 1 ==> !ts[i].Blur?
  {
    var crop := if c.applyCenterCrop then [CenterCrop] else [];
    var shape := if c.isRound then [CircleCrop]
                 else if c.radius > 0 then [RoundedCorners(c.radius, 0)]
                 else [];
    var blur := if c.blurRadius > 0 then [Blur(c.blurRadius, c.sampling)] else [];
    assert crop + shape + blur == crop + (shape + blur);
    crop + shape + blur
  }

  /** The parts of Glide's `RequestOptions` the configuration sets. */
  datatype RequestOptions = RequestOptions(
    transform: Option<seq<Transformation>>,
    placeholder: Option<int>,
    error: Option<int>,
    diskCacheStrategy: DiskCacheStrategy)

  /** `toRequestOptions`: the transformations are applied only when there are some; the
      placeholder doubles as the error image, both only when asked for; the cache
      strategy is always set. */
  function ToRequestOptions(c: ImageLoadConfig): (o: RequestOptions)
    ensures o.transform.None? <==> BuildTransformations(c) == []
    ensures o.transform.Some? ==> o.transform.value == BuildTransformations(c)
    ensures o.placeholder.Some? <==> c.showPlaceholder
    ensures o.error == o.placeholder
    ensures c.showPlaceholder ==> o.placeholder == Some(c.placeholderRes)
    ensures o.diskCacheStrategy == c.cacheStrategy
  {
    var ts := BuildTransformations(c);
    RequestOptions(
      if |ts| > 0 then Some(ts) else None,
      if c.showPlaceholder then Some(c.placeholderRes) else None,
      if c.showPlaceholder then Some(c.placeholderRes) else None,
      c.cacheStrategy)
  }

  // ------------------------------------------------------------ context chain

  /** A `Context`: a ComponentActivity (with its lifecycle flags), some other
      `ContextWrapper` around a base context, or a context that is neither. */
  datatype Context =
    | ComponentActivity(id: int, isDestroyed: bool, isFinishing: bool)
    | Wrapper(id: int, baseContext: Context)
    | Plain(id: int)

  /** `findComponentActivity`: unwraps base contexts until an activity is found. */
  function FindComponentActivity(ctx: Context): (a: Option<Context>)
    ensures a.Some? ==> a.value.ComponentActivity?
  {
    match ctx
    case ComponentActivity(_, _, _) => Some(ctx)
    case Wrapper(_, base) => FindComponentActivity(base)
    case Plain(_) => None
  }

  /** The context reached by unwrapping `k` times, if every step is a plain wrapper. */
  function Unwrap(ctx: Context, k: nat): Option<Context> {
    if k == 0 then Some(ctx)
    else match ctx
      case Wrapper(_, base) => Unwrap(base, k - 1)
      case _ => None
  }

  /** The search finds the activity at the first depth that holds one, and finds nothing
      exactly when no depth does. */
  lemma {:induction false} FindComponentActivityIsFirst(ctx: Context)
    ensures FindComponentActivity(ctx).Some? ==>
      exists k: nat :: Unwrap(ctx, k) == FindComponentActivity(ctx)
    ensures FindComponentActivity(ctx).None? ==>
      forall k: nat :: Unwrap(ctx, k).None? || !Unwrap(ctx, k).value.ComponentActivity?
  {
    match ctx
    case ComponentActivity(_, _, _) =>
      assert Unwrap(ctx, 0) == Some(ctx);
    case Wrapper(_, base) =>
      FindComponentActivityIsFirst(base);
      if FindComponentActivity(base).Some? {
        var k: nat :| Unwrap(base, k) == FindComponentActivity(base);
        assert Unwrap(ctx, k + 1) == Unwrap(base, k);
      } else {
        forall k: nat ensures Unwrap(ctx, k).None? || !Unwrap(ctx, k).value.ComponentActivity? {
          if k > 0 {
            assert Unwrap(ctx, k) == Unwrap(base, k - 1);
          }
        }
      }
    case Plain(_) =>
      forall k: nat ensures Unwrap(ctx, k).None? || !Unwrap(ctx, k).value.ComponentActivity? {
      }
  }

  /** `isContextValid`: valid unless the activity found is destroyed or finishing; a
      context chain without an activity is valid. */
  function IsContextValid(ctx: Context): (v: bool)
    ensures v <==> FindComponentActivity(ctx).None?
                   || (!FindComponentActivity(ctx).value.isDestroyed && !FindComponentActivity(ctx).value.isFinishing)
  {
    var activity := FindComponentActivity(ctx);
    activity.None? || (!activity.value.isDestroyed && !activity.value.isFinishing)
  }

  /** A wrapper is exactly as valid as what it wraps. */
  lemma WrappingKeepsValidity(id: int, ctx: Context)
    ensures IsContextValid(Wrapper(id, ctx)) == IsContextValid(ctx)
  {
  }

  // ------------------------------------------------------------ loads

  /** A request handed to the image library: the source, the options (none for the
      plain load) and the thumbnail fraction, if one is asked for. */
  datatype LoadRequest<T> = LoadRequest(url: T, options: Option<RequestOptions>, thumbnail: Option<real>)

  /** `loadImage(url, config)`: nothing when the context is not valid; otherwise the
      configuration's options, and a thumbnail only for a positive thumbnail size. */
  function LoadImage<T>(ctx: Context, url: T, config: ImageLoadConfig): (r: Option<LoadRequest<T>>)
    ensures r.None? <==> !IsContextValid(ctx)
    ensures r.Some? ==> r.value.url == url && r.value.options == Some(ToRequestOptions(config))
    ensures r.Some? ==> (r.value.thumbnail.Some? <==> config.thumbnailSize > 0.0)
    ensures r.Some? && r.value.thumbnail.Some? ==> r.value.thumbnail.value == config.thumbnailSize
  {
    if !IsContextValid(ctx) then None
    else Some(LoadRequest(url, Some(ToRequestOptions(config)),
                          if config.thumbnailSize > 0.0 then Some(config.thumbnailSize) else None))
  }

  /** `setImageUrl`: missing radius and blur mean none, a missing sampling means 1, a
      missing placeholder means the default one; the placeholder is shown only on
      request, the disk cache keeps everything and no thumbnail is loaded. */
  function SetImageUrlConfig(isRound: bool, radius: Option<int>, blurRadius: Option<int>, sampling: Option<int>,
                             isPlaceholder: bool, imagePlaceholder: Option<int>, defaultPlaceholder: int)
    : (c: ImageLoadConfig)
    ensures c.isRound == isRound && c.showPlaceholder == isPlaceholder
    ensures c.radius == (if radius.Some? then radius.value else 0)
    ensures c.blurRadius == (if blurRadius.Some? then blurRadius.value else 0)
    ensures c.sampling == (if sampling.Some? then sampling.value else 1)
    ensures c.placeholderRes == (if imagePlaceholder.Some? then imagePlaceholder.value else defaultPlaceholder)
    ensures c.cacheStrategy == ALL && c.thumbnailSize == 0.0 && c.applyCenterCrop
  {
    ImageLoadConfig(isRound, radius.GetOr(0), blurRadius.GetOr(0), sampling.GetOr(1), isPlaceholder,
                    imagePlaceholder.GetOr(defaultPlaceholder), ALL, 0.0, true)
  }

  function SetImageUrl<T>(ctx: Context, url: T, isRound: bool, radius: Option<int>, blurRadius: Option<int>,
                          sampling: Option<int>, isPlaceholder: bool, imagePlaceholder: Option<int>,
                          defaultPlaceholder: int): (r: Option<LoadRequest<T>>)
    ensures r == LoadImage(ctx, url, SetImageUrlConfig(isRound, radius, blurRadius, sampling, isPlaceholder,
                                                       imagePlaceholder, defaultPlaceholder))
    ensures r.Some? ==> r.value.thumbnail.None?
  {
    LoadImage(ctx, url, SetImageUrlConfig(isRound, radius, blurRadius, sampling, isPlaceholder,
                                          imagePlaceholder, defaultPlaceholder))
  }

  /** `setImageUrlRes`: local resources always show the placeholder and skip the disk
      cache; blur sampling stays at its default of 1. */
  function SetImageUrlResConfig(isRound: bool, radius: Option<int>, blurRadius: Option<int>,
                                imagePlaceholder: Option<int>, defaultPlaceholder: int): (c: ImageLoadConfig)
    ensures c.isRound == isRound && c.showPlaceholder
    ensures c.radius == (if radius.Some? then radius.value else 0)
    ensures c.blurRadius == (if blurRadius.Some? then blurRadius.value else 0)
    ensures c.sampling == 1
    ensures c.placeholderRes == (if imagePlaceholder.Some? then imagePlaceholder.value else defaultPlaceholder)
    ensures c.cacheStrategy == NONE && c.thumbnailSize == 0.0 && c.applyCenterCrop
  {
    ImageLoadConfig(isRound, radius.GetOr(0), blurRadius.GetOr(0), 1, true,
                    imagePlaceholder.GetOr(defaultPlaceholder), NONE, 0.0, true)
  }

  /** `setImageUrlItem`: list items always show the placeholder, let the library choose
      the cache and load a quarter-size thumbnail first. */
  function SetImageUrlItemConfig(isRound: bool, radius: Option<int>, blurRadius: Option<int>,
                                 imagePlaceholder: Option<int>, defaultPlaceholder: int): (c: ImageLoadConfig)
    ensures c.isRound == isRound && c.showPlaceholder
    ensures c.radius == (if radius.Some? then radius.value else 0)
    ensures c.blurRadius == (if blurRadius.Some? then blurRadius.value else 0)
    ensures c.sampling == 1
    ensures c.placeholderRes == (if imagePlaceholder.Some? then imagePlaceholder.value else defaultPlaceholder)
    ensures c.cacheStrategy == AUTOMATIC && c.thumbnailSize == 0.25 && c.applyCenterCrop
  {
    ImageLoadConfig(isRound, radius.GetOr(0), blurRadius.GetOr(0), 1, true,
                    imagePlaceholder.GetOr(defaultPlaceholder), AUTOMATIC, 0.25, true)
  }

  /** `setImageUrlNoPlaceholder`: no options at all, but the same validity check. */
  function SetImageUrlNoPlaceholder<T>(ctx: Context, url: T): (r: Option<LoadRequest<T>>)
    ensures r.None? <==> !IsContextValid(ctx)
    ensures r.Some? ==> r.value == LoadRequest(url, None, None)
  {
    if IsContextValid(ctx) then Some(LoadRequest(url, None, None)) else None
  }

  // ------------------------------------------------------------ lemmas

  /** `setImageUrl` with every argument left at its default loads exactly as
      `loadImage` with the default configuration. */
  lemma SetImageUrlDefaultsAreConfigDefaults<T>(ctx: Context, url: T, defaultPlaceholder: int)
    ensures SetImageUrl(ctx, url, false, None, None, None, false, Some(defaultPlaceholder), defaultPlaceholder)
            == LoadImage(ctx, url, DefaultConfig(defaultPlaceholder))
  {
  }

  /** The default configuration only centre-crops, and sets no placeholder. */
  lemma DefaultConfigOnlyCrops(defaultPlaceholder: int)
    ensures var o := ToRequestOptions(DefaultConfig(defaultPlaceholder));
      o.transform == Some([CenterCrop]) && o.placeholder.None? && o.diskCacheStrategy == ALL
  {
    var ts := BuildTransformations(DefaultConfig(defaultPlaceholder));
    assert |ts| == 1 && ts[0] == CenterCrop;
    assert ts == [CenterCrop];
  }

  /** A round image ignores its corner radius: the same transformations are built
      whatever radius is given. */
  lemma RoundIgnoresRadius(c: ImageLoadConfig, radius: int)
    requires c.isRound
    ensures BuildTransformations(c.(radius := radius)) == BuildTransformations(c)
  {
  }

  /** List items load a thumbnail and resource images never do, when the context is
      valid. */
  lemma ItemLoadsThumbnailResourceDoesNot<T>(ctx: Context, url: T, isRound: bool, radius: Option<int>,
                                             blurRadius: Option<int>, imagePlaceholder: Option<int>,
                                             defaultPlaceholder: int)
    requires IsContextValid(ctx)
    ensures LoadImage(ctx, url, SetImageUrlItemConfig(isRound, radius, blurRadius, imagePlaceholder,
                                                      defaultPlaceholder)).value.thumbnail == Some(0.25)
    ensures LoadImage(ctx, url, SetImageUrlResConfig(isRound, radius, blurRadius, imagePlaceholder,
                                                     defaultPlaceholder)).value.thumbnail.None?
  {
  }
}
