/**
 * Stand-ins for the Playwright objects the harness drives. They are handles with
 * the one piece of state the harness inspects or changes (connected, tracing, closed) and
 * ghost logs of the calls made on them (closes, trace stops, screenshots). Launching,
 * opening a context and opening a page are their constructors.
 */
module Playwright {
  import opened Wrappers
  import opened Values

  datatype BrowserName = Chromium | Firefox | Webkit {
    function Name(): string {
      match this
      case Chromium => "chromium"
      case Firefox => "firefox"
      case Webkit => "webkit"
    }
  }

  /** The keys of a `LaunchOptions` record the harness sets; others are kept by name. */
  datatype LaunchOption = Headless | Args | OtherLaunchOption(name: string)
  type LaunchOptions = map<LaunchOption, Value>

  /** The keys of a `BrowserContextOptions` record (plus the factory's `name`). */
  datatype ContextOption =
    | ContextName | Viewport | UserAgent | IsMobile | HasTouch | IgnoreHttpsErrors
    | RecordVideo | StorageState | Permissions | Geolocation | OtherContextOption(name: string)
  type ContextOptions = map<ContextOption, Value>

  class Browser {
    const engine: BrowserName
    const launchOptions: LaunchOptions
    var connected: bool
    ghost var closeCalls: nat

    /** `browserType.launch(options)` */
    constructor Launch(engine: BrowserName, options: LaunchOptions)
      ensures this.engine == engine && launchOptions == options
      ensures connected && closeCalls == 0
    {
      this.engine := engine;
      launchOptions := options;
      connected := true;
      closeCalls := 0;
    }

    /** `browser.close()` */
    method Close()
      modifies this
      ensures !connected && closeCalls == old(closeCalls) + 1
    {
      connected := false;
      closeCalls := closeCalls + 1;
    }

    /** The browser process goes away on its own (a crash, a kill). */
    method Disconnect()
      modifies this
      ensures !connected && closeCalls == old(closeCalls)
    {
      connected := false;
    }
  }

  class Context {
    const browser: Browser
    const options: ContextOptions
    var tracing: bool
    var closed: bool
    /** One entry per `tracing.stop`: the path written to, or None when discarded. */
    ghost var traceStops: seq<Option<string>>
    ghost var savedStates: seq<string>

    /** `browser.newContext(options)` */
    constructor (browser: Browser, options: ContextOptions)
      ensures this.browser == browser && this.options == options
      ensures !tracing && !closed && traceStops == [] && savedStates == []
    {
      this.browser := browser;
      this.options := options;
      tracing := false;
      closed := false;
      traceStops := [];
      savedStates := [];
    }

    /** `tracing.start({ screenshots: true, snapshots: true })` */
    method StartTracing()
      modifies this
      ensures tracing && closed == old(closed)
      ensures traceStops == old(traceStops) && savedStates == old(savedStates)
    {
      tracing := true;
    }

    /** `tracing.stop({ path })`, or `tracing.stop()` when `path` is None. */
    method StopTracing(path: Option<string>)
      modifies this
      ensures !tracing && closed == old(closed)
      ensures traceStops == old(traceStops) + [path] && savedStates == old(savedStates)
    {
      tracing := false;
      traceStops := traceStops + [path];
    }

    /** `storageState({ path })` */
    method StorageState(path: string)
      modifies this
      ensures tracing == old(tracing) && closed == old(closed)
      ensures traceStops == old(traceStops) && savedStates == old(savedStates) + [path]
    {
      savedStates := savedStates + [path];
    }

    /** `context.close()` */
    method Close()
      modifies this
      ensures closed && tracing == old(tracing)
      ensures traceStops == old(traceStops) && savedStates == old(savedStates)
    {
      closed := true;
    }
  }

  class Page {
    const context: Context
    ghost var screenshots: seq<string>

    /** `context.newPage()` */
    constructor (context: Context)
      ensures this.context == context && screenshots == []
    {
      this.context := context;
      screenshots := [];
    }

    /** `page.screenshot({ path, fullPage: true })` */
    method Screenshot(path: string)
      modifies this
      ensures screenshots == old(screenshots) + [path]
    {
      screenshots := screenshots + [path];
    }
  }

  /**
   * The `use` section of the run configuration; a setting that is absent (or a missing
   * `use` section) is `Undefined`.
   */
  datatype UseConfig = UseConfig(
    headless: Value,
    viewport: Value,
    ignoreHttpsErrors: Value,
    video: Value,
    screenshot: Value,
    trace: Value)

  /** The configuration the repository ships. */
  const ShippedConfig := UseConfig(
    headless := Bool(false),
    viewport := Obj(map["width" := Num(1280), "height" := Num(720)]),
    ignoreHttpsErrors := Bool(true),
    video := Str("off"),
    screenshot := Str("on"),
    trace := Str("on"))

  /** A configuration without a `use` section. */
  const NoUseConfig := UseConfig(Undefined, Undefined, Undefined, Undefined, Undefined, Undefined)
}
