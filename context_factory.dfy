/**
 * The context factory: builds browser contexts from layered options (configuration
 * defaults, then a device profile, then the caller's options), starts tracing on them,
 * and keeps the named ones in a cache.
 */
module ContextFactories {
  import opened Wrappers
  import opened Values
  import opened Playwright

  datatype DeviceType = Desktop | Mobile | Tablet {
    function Name(): string {
      match this
      case Desktop => "desktop"
      case Mobile => "mobile"
      case Tablet => "tablet"
    }
  }

  function Size(width: int, height: int): Value {
    Obj(map["width" := Num(width), "height" := Num(height)])
  }

  /** `getDefaultOptions()`: viewport and HTTPS defaults, video when configured. */
  function DefaultOptions(config: UseConfig): (r: ContextOptions)
    ensures r.Keys == {Viewport, IgnoreHttpsErrors, RecordVideo}
    ensures r[Viewport] == (if Nullish(config.viewport) then Null else config.viewport)
    ensures r[IgnoreHttpsErrors] ==
              (if Nullish(config.ignoreHttpsErrors) then Bool(true) else config.ignoreHttpsErrors)
    ensures r[RecordVideo].Undefined? <==> !Truthy(config.video)
  {
    map[
      Viewport := Coalesce(config.viewport, Null),
      IgnoreHttpsErrors := Coalesce(config.ignoreHttpsErrors, Bool(true)),
      RecordVideo := if Truthy(config.video)
        then Obj(map["dir" := Str("test-results/videos"), "size" := Size(1920, 1080)])
        else Undefined]
  }

  /** The user agents of the three device profiles. */
  const DesktopUserAgent: string := "Mozilla/5.0 (Windows NT 10.0; Win64; x64) Chrome/120.0.0.0"
  const MobileUserAgent: string := "Mozilla/5.0 (iPhone; CPU iPhone OS 15_0 like Mac OS X) AppleWebKit/605.1.15 Safari/604.1"
  const TabletUserAgent: string := "Mozilla/5.0 (iPad; CPU OS 15_0 like Mac OS X) AppleWebKit/605.1.15 Safari/604.1"

  /** The three device profiles of `createForDevice`. */
  function DeviceConfig(device: DeviceType): (r: ContextOptions)
    ensures Viewport in r && UserAgent in r && ContextName !in r
    ensures IsMobile in r <==> device != Desktop
    ensures HasTouch in r <==> device != Desktop
    ensures device != Desktop ==> r[IsMobile] == Bool(true) && r[HasTouch] == Bool(true)
  {
    match device
    case Desktop => map[
      Viewport := Null,
      UserAgent := Str(DesktopUserAgent)]
    case Mobile => map[
      Viewport := Size(375, 812),
      UserAgent := Str(MobileUserAgent),
      IsMobile := Bool(true),
      HasTouch := Bool(true)]
    case Tablet => map[
      Viewport := Size(768, 1024),
      UserAgent := Str(TabletUserAgent),
      IsMobile := Bool(true),
      HasTouch := Bool(true)]
  }

  /** The options `create` passes to `newContext`: defaults, then the caller's options. */
  function ContextOptionsFor(config: UseConfig, options: Option<ContextOptions>): (r: ContextOptions)
    ensures r.Keys == DefaultOptions(config).Keys + options.GetOr(map[]).Keys
    ensures options.Some? ==> forall k :: k in options.value ==> r[k] == options.value[k]
  {
    DefaultOptions(config) + options.GetOr(map[])
  }

  /**
   * The options `createForDevice` hands to `create`: a name (the caller's if truthy,
   * otherwise "<device>-context"), then the device profile, then the caller's options.
   */
  function DeviceOptions(device: DeviceType, options: Option<ContextOptions>): (r: ContextOptions)
    ensures ContextName in r && Viewport in r && UserAgent in r
    ensures options.Some? ==> forall k :: k in options.value ==> k in r && r[k] == options.value[k]
  {
    var opts := options.GetOr(map[]);
    map[ContextName := Or(Get(opts, ContextName), Str(device.Name() + "-context"))]
      + DeviceConfig(device)
      + opts
  }

  /** `{ ...options, storageState: storageStatePath }` */
  function AuthOptions(options: Option<ContextOptions>, storageStatePath: string): (r: ContextOptions)
    ensures StorageState in r && r[StorageState] == Str(storageStatePath)
    ensures options.Some? ==> forall k :: k in options.value && k != StorageState ==> k in r && r[k] == options.value[k]
    ensures forall k :: k in r && k != StorageState ==> options.Some? && k in options.value
  {
    options.GetOr(map[]) + map[StorageState := Str(storageStatePath)]
  }

  /** `{ ...options, permissions }` */
  function PermissionOptions(options: Option<ContextOptions>, permissions: seq<string>): (r: ContextOptions)
    ensures Permissions in r && r[Permissions] == List(seq(|permissions|, i requires 0 <= i < |permissions| => Str(permissions[i])))
    ensures options.Some? ==> forall k :: k in options.value && k != Permissions ==> k in r && r[k] == options.value[k]
    ensures forall k :: k in r && k != Permissions ==> options.Some? && k in options.value
  {
    options.GetOr(map[]) + map[Permissions := List(seq(|permissions|, i requires 0 <= i < |permissions| => Str(permissions[i])))]
  }

  /** `{ ...options, geolocation: { latitude, longitude }, permissions: ['geolocation'] }` */
  function GeolocationOptions(options: Option<ContextOptions>, latitude: int, longitude: int): (r: ContextOptions)
    ensures Geolocation in r && Permissions in r
    ensures r[Geolocation] == Obj(map["latitude" := Num(latitude), "longitude" := Num(longitude)])
    ensures r[Permissions] == List([Str("geolocation")])
    ensures options.Some? ==> forall k :: k in options.value && k !in {Geolocation, Permissions} ==>
              k in r && r[k] == options.value[k]
    ensures forall k :: k in r && k !in {Geolocation, Permissions} ==> options.Some? && k in options.value
  {
    var layer := map[
      Geolocation := Obj(map["latitude" := Num(latitude), "longitude" := Num(longitude)]),
      Permissions := List([Str("geolocation")])];
    options.GetOr(map[]) + layer
  }

  /** The cache key of `create`: `options.name` when it is truthy, otherwise none. */
  function CacheNameOf(options: Option<ContextOptions>): (r: Option<Value>)
    ensures r.Some? <==> options.Some? && Truthy(Get(options.value, ContextName))
    ensures r.Some? ==> r.value == options.value[ContextName]
  {
    if options.Some? && Truthy(Get(options.value, ContextName)) then Some(options.value[ContextName])
    else None
  }

  /** Whether `create` starts tracing: asked for, and `trace` configured (any truthy value). */
  predicate StartsTracing(config: UseConfig, startTracing: bool) {
    startTracing && Truthy(config.trace)
  }

  // ---------------------------------------------------------------------------
  // Properties of the option layering

  /** In `create`, a caller option overrides the configuration default of the same key. */
  lemma CallerOverridesDefaults(config: UseConfig, options: ContextOptions, k: ContextOption)
    ensures k in options ==> ContextOptionsFor(config, Some(options))[k] == options[k]
    ensures k !in options && k in DefaultOptions(config) ==>
              ContextOptionsFor(config, Some(options))[k] == DefaultOptions(config)[k]
    ensures k in ContextOptionsFor(config, Some(options)) <==> k in options || k in DefaultOptions(config)
  {
  }

  /** `{...defaults, ...{...name, ...profile, ...options}}`: which layer each key comes from. */
  lemma LayeredLookup(defaults: ContextOptions, name: ContextOptions, profile: ContextOptions,
                      options: ContextOptions, k: ContextOption)
    requires k !in name
    ensures var r := defaults + (name + profile + options);
      && (k in options ==> k in r && r[k] == options[k])
      && (k !in options && k in profile ==> k in r && r[k] == profile[k])
      && (k !in options && k !in profile && k in defaults ==> k in r && r[k] == defaults[k])
  {
  }

  /** The device options are the name layer, then the profile, then the caller's options. */
  lemma DeviceOptionsLayers(device: DeviceType, options: ContextOptions)
    ensures DeviceOptions(device, Some(options)) ==
              map[ContextName := Or(Get(options, ContextName), Str(device.Name() + "-context"))]
              + DeviceConfig(device) + options
  {
  }

  /**
   * In `createForDevice`, the caller's options override the device profile, which
   * overrides the configuration defaults.
   */
  lemma DeviceLayering(config: UseConfig, device: DeviceType, options: ContextOptions, k: ContextOption)
    requires k != ContextName
    ensures var r := ContextOptionsFor(config, Some(DeviceOptions(device, Some(options))));
      && (k in options ==> k in r && r[k] == options[k])
      && (k !in options && k in DeviceConfig(device) ==> k in r && r[k] == DeviceConfig(device)[k])
      && (k !in options && k !in DeviceConfig(device) && k in DefaultOptions(config) ==>
            k in r && r[k] == DefaultOptions(config)[k])
  {
    DeviceOptionsLayers(device, options);
    LayeredLookup(DefaultOptions(config), map[ContextName := Or(Get(options, ContextName), Str(device.Name() + "-context"))],
                  DeviceConfig(device), options, k);
  }

  /** Without caller options, the device profile overrides the configuration defaults. */
  lemma ProfileWins(config: UseConfig, device: DeviceType, k: ContextOption)
    requires k in DeviceConfig(device)
    ensures var r := ContextOptionsFor(config, Some(DeviceOptions(device, None)));
      k in r && r[k] == DeviceConfig(device)[k]
  {
    ProfileHasNoName(device);
    assert DeviceOptions(device, None) == DeviceOptions(device, Some(map[]));
    DeviceLayering(config, device, map[], k);
  }

  /** No device profile sets `name`, so the name layer is never overridden by the profile. */
  lemma ProfileHasNoName(device: DeviceType)
    ensures ContextName !in DeviceConfig(device)
  {
    match device
    case Desktop =>
    case Mobile =>
    case Tablet =>
  }

  /** A mobile context, without caller options, is a touch device with a 375x812 viewport. */
  lemma MobileProfile(config: UseConfig)
    ensures var m := ContextOptionsFor(config, Some(DeviceOptions(Mobile, None)));
      && IsMobile in m && HasTouch in m && Viewport in m
      && m[IsMobile] == Bool(true) && m[HasTouch] == Bool(true) && m[Viewport] == Size(375, 812)
  {
    var p := DeviceConfig(Mobile);
    assert p[IsMobile] == Bool(true) && p[HasTouch] == Bool(true) && p[Viewport] == Size(375, 812);
    ProfileWins(config, Mobile, IsMobile);
    ProfileWins(config, Mobile, HasTouch);
    ProfileWins(config, Mobile, Viewport);
  }

  /** A tablet context, without caller options, is a touch device with a 768x1024 viewport. */
  lemma TabletProfile(config: UseConfig)
    ensures var t := ContextOptionsFor(config, Some(DeviceOptions(Tablet, None)));
      && IsMobile in t && HasTouch in t && Viewport in t
      && t[IsMobile] == Bool(true) && t[HasTouch] == Bool(true) && t[Viewport] == Size(768, 1024)
  {
    var p := DeviceConfig(Tablet);
    assert p[IsMobile] == Bool(true) && p[HasTouch] == Bool(true) && p[Viewport] == Size(768, 1024);
    ProfileWins(config, Tablet, IsMobile);
    ProfileWins(config, Tablet, HasTouch);
    ProfileWins(config, Tablet, Viewport);
  }

  /**
   * A desktop context, without caller options, has a null viewport (the window size)
   * whatever the configuration says, and is neither mobile nor touch.
   */
  lemma DesktopProfile(config: UseConfig)
    ensures var d := ContextOptionsFor(config, Some(DeviceOptions(Desktop, None)));
      Viewport in d && d[Viewport] == Null && IsMobile !in d && HasTouch !in d
  {
    var p := DeviceConfig(Desktop);
    assert p[Viewport] == Null && IsMobile !in p && HasTouch !in p;
    ProfileWins(config, Desktop, Viewport);
    var d := DeviceOptions(Desktop, None);
    assert d.Keys == p.Keys + {ContextName};
  }

  /**
   * A device context is cached under the caller's name when it is a non-empty string,
   * and under "<device>-context" when the caller gives no name.
   */
  lemma DeviceContextName(device: DeviceType, options: Option<ContextOptions>)
    ensures options.None? || ContextName !in options.value ==>
              CacheNameOf(Some(DeviceOptions(device, options))) == Some(Str(device.Name() + "-context"))
    ensures options.Some? && ContextName in options.value && Truthy(options.value[ContextName]) ==>
              CacheNameOf(Some(DeviceOptions(device, options))) == Some(options.value[ContextName])
  {
    var opts := options.GetOr(map[]);
    assert DeviceOptions(device, options) == DeviceOptions(device, Some(opts));
    DeviceNameLayer(device, opts);
  }

  /** The `name` of the device options: the caller's own key if present, else the name layer's. */
  lemma DeviceNameLayer(device: DeviceType, options: ContextOptions)
    ensures var d := DeviceOptions(device, Some(options));
      && ContextName in d
      && d[ContextName] == if ContextName in options then options[ContextName] else Str(device.Name() + "-context")
  {
    DeviceOptionsLayers(device, options);
    ProfileHasNoName(device);
  }

  /**
   * The caller's own `name` key is spread last, so an explicit `name: undefined` undoes
   * the "<device>-context" default: such a context is not cached at all.
   */
  lemma DeviceContextUndefinedName(device: DeviceType, options: ContextOptions)
    requires ContextName in options && !Truthy(options[ContextName])
    ensures CacheNameOf(Some(DeviceOptions(device, Some(options)))).None?
  {
    DeviceNameLayer(device, options);
  }

  /** A `trace` setting of 'off' is a non-empty string, so it still starts tracing. */
  lemma TraceOffStillTraces(config: UseConfig)
    requires config.trace == Str("off")
    ensures StartsTracing(config, true)
    ensures !StartsTracing(config, false)
  {
  }

  /** The shipped configuration's `video: 'off'` is truthy, so contexts record video. */
  lemma ShippedConfigRecordsVideo()
    ensures DefaultOptions(ShippedConfig)[RecordVideo].Obj?
  {
  }

  class ContextFactory {
    const config: UseConfig
    /** The static `contexts` map, keyed by the (truthy) `name` option. */
    var contexts: map<Value, Context>

    constructor (config: UseConfig)
      ensures this.config == config && contexts == map[]
    {
      this.config := config;
      contexts := map[];
    }

    /** `create(browser, options?, startTracing = true)` */
    method Create(browser: Browser, options: Option<ContextOptions> := None, startTracing: bool := true)
      returns (context: Context)
      modifies this
      ensures fresh(context) && context.browser == browser
      ensures context.options == ContextOptionsFor(config, options)
      ensures context.tracing == StartsTracing(config, startTracing)
      ensures !context.closed && context.traceStops == [] && context.savedStates == []
      ensures contexts == match CacheNameOf(options)
                          case Some(name) => old(contexts)[name := context]
                          case None => old(contexts)
    {
      context := new Context(browser, ContextOptionsFor(config, options));
      if startTracing && Truthy(config.trace) {
        context.StartTracing();
      }
      var name := CacheNameOf(options);
      if name.Some? {
        contexts := contexts[name.value := context];
      }
    }

    /** `createForDevice(browser, deviceType = 'desktop', options?)` */
    method CreateForDevice(browser: Browser, device: DeviceType := Desktop, options: Option<ContextOptions> := None)
      returns (context: Context)
      modifies this
      ensures fresh(context) && context.browser == browser
      ensures context.options == ContextOptionsFor(config, Some(DeviceOptions(device, options)))
      ensures context.tracing == StartsTracing(config, true) && !context.closed
      ensures contexts == match CacheNameOf(Some(DeviceOptions(device, options)))
                          case Some(name) => old(contexts)[name := context]
                          case None => old(contexts)
    {
      context := Create(browser, Some(DeviceOptions(device, options)), true);
    }

    /** `createWithAuth(browser, storageStatePath, options)` */
    method CreateWithAuth(browser: Browser, storageStatePath: string, options: Option<ContextOptions>)
      returns (context: Context)
      modifies this
      ensures fresh(context) && context.browser == browser
      ensures context.options == ContextOptionsFor(config, Some(AuthOptions(options, storageStatePath)))
      ensures context.tracing == StartsTracing(config, true) && !context.closed
      ensures contexts == match CacheNameOf(Some(AuthOptions(options, storageStatePath)))
                          case Some(name) => old(contexts)[name := context]
                          case None => old(contexts)
    {
      context := Create(browser, Some(AuthOptions(options, storageStatePath)), true);
    }

    /** `createWithPermissions(browser, permissions, options)` */
    method CreateWithPermissions(browser: Browser, permissions: seq<string>, options: Option<ContextOptions>)
      returns (context: Context)
      modifies this
      ensures fresh(context) && context.browser == browser
      ensures context.options == ContextOptionsFor(config, Some(PermissionOptions(options, permissions)))
      ensures context.tracing == StartsTracing(config, true) && !context.closed
      ensures contexts == match CacheNameOf(Some(PermissionOptions(options, permissions)))
                          case Some(name) => old(contexts)[name := context]
                          case None => old(contexts)
    {
      context := Create(browser, Some(PermissionOptions(options, permissions)), true);
    }

    /** `createWithGeolocation(browser, latitude, longitude, options)` */
    method CreateWithGeolocation(browser: Browser, latitude: int, longitude: int, options: Option<ContextOptions>)
      returns (context: Context)
      modifies this
      ensures fresh(context) && context.browser == browser
      ensures context.options == ContextOptionsFor(config, Some(GeolocationOptions(options, latitude, longitude)))
      ensures context.tracing == StartsTracing(config, true) && !context.closed
      ensures contexts == match CacheNameOf(Some(GeolocationOptions(options, latitude, longitude)))
                          case Some(name) => old(contexts)[name := context]
                          case None => old(contexts)
    {
      context := Create(browser, Some(GeolocationOptions(options, latitude, longitude)), true);
    }

    /** `createPage(context)` */
    static method CreatePage(context: Context) returns (page: Page)
      ensures fresh(page) && page.context == context && page.screenshots == []
    {
      page := new Page(context);
    }

    /** `saveAuthState(context, path)` */
    static method SaveAuthState(context: Context, path: string)
      modifies context
      ensures context.savedStates == old(context.savedStates) + [path]
      ensures context.traceStops == old(context.traceStops) && context.tracing == old(context.tracing)
      ensures context.closed == old(context.closed)
    {
      context.StorageState(path);
    }

    /** `stopTracing(context, tracePath)`: writes the trace only when a path is given. */
    static method StopTracing(context: Context, tracePath: Option<string>)
      modifies context
      ensures !context.tracing && context.closed == old(context.closed)
      ensures context.traceStops == old(context.traceStops) +
                [if tracePath.Some? && tracePath.value != "" then tracePath else None]
      ensures context.savedStates == old(context.savedStates)
    {
      if tracePath.Some? && tracePath.value != "" {
        context.StopTracing(tracePath);
      } else {
        context.StopTracing(None);
      }
    }

    /** `close(context)` */
    static method Close(context: Context?)
      modifies context
      ensures context != null ==> context.closed
      ensures context != null ==>
                && context.tracing == old(context.tracing) && context.traceStops == old(context.traceStops)
                && context.savedStates == old(context.savedStates)
    {
      if context != null {
        context.Close();
      }
    }

    /** `get(name)` */
    function Get(name: string): (r: Option<Context>)
      reads this
      ensures r.Some? <==> Str(name) in contexts
      ensures r.Some? ==> r.value == contexts[Str(name)]
    {
      if Str(name) in contexts then Some(contexts[Str(name)]) else None
    }

    /** `closeAll()`: closes every cached context, then empties the cache. */
    method CloseAll()
      modifies this, contexts.Values
      ensures contexts == map[]
      ensures forall c :: c in old(contexts).Values ==> c.closed
      ensures forall c :: c in old(contexts).Values ==>
                && c.tracing == old(c.tracing) && c.traceStops == old(c.traceStops)
                && c.savedStates == old(c.savedStates)
    {
      var pending := contexts.Values;
      while pending != {}
        invariant pending <= old(contexts).Values
        invariant contexts == old(contexts)
        invariant forall c :: c in old(contexts).Values - pending ==> c.closed
        invariant forall c :: c in old(contexts).Values ==>
                    && c.tracing == old(c.tracing) && c.traceStops == old(c.traceStops)
                    && c.savedStates == old(c.savedStates)
        decreases pending
      {
        var c :| c in pending;
        c.Close();
        pending := pending - {c};
      }
      contexts := map[];
    }
  }

  /** A context created under a name is what `get` returns, replacing any earlier one. */
  method NamedContextIsCached(factory: ContextFactory, browser: Browser, name: string)
    returns (context: Context, found: Option<Context>)
    requires name != ""
    modifies factory
    ensures found == Some(context)
  {
    context := factory.Create(browser, Some(map[ContextName := Str(name)]), true);
    found := factory.Get(name);
  }
}
