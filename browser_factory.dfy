/**
 * The browser factory: launches Chromium, Firefox or WebKit and keeps a cache of launched
 * browsers keyed by the browser name and the launch options, so that a caller asking for
 * reuse gets the same connected browser back.
 */
module BrowserFactories {
  import opened Wrappers
  import opened Values
  import opened Text
  import opened Playwright

  /**
   * The cache key `${browserName}-${JSON.stringify(options || {})}`, as an injective pair;
   * absent options are keyed as the empty record.
   */
  datatype CacheKey = CacheKey(browserName: BrowserName, options: LaunchOptions)

  function KeyOf(browserName: BrowserName, options: Option<LaunchOptions>): (k: CacheKey)
    ensures k.browserName == browserName
    ensures options.None? ==> k.options == map[]
    ensures options.Some? ==> k.options == options.value
  {
    CacheKey(browserName, options.GetOr(map[]))
  }

  /** `process.env.HEADLESS !== 'false'` */
  predicate HeadlessFromEnv(env: Env) {
    !("HEADLESS" in env && env["HEADLESS"] == "false")
  }

  /**
   * The options passed to `browserType.launch`: headless and args defaults, then the
   * caller's options spread over them.
   */
  function EffectiveLaunchOptions(browserName: BrowserName, options: Option<LaunchOptions>, env: Env): (r: LaunchOptions)
    ensures forall k :: k in r <==> k == Headless || k == Args || (options.Some? && k in options.value)
  {
    var defaults := map[
      Headless := Bool(HeadlessFromEnv(env)),
      Args := List(if browserName == Chromium then [Str("--start-maximized")] else [])];
    AssignPair(defaults, options.GetOr(map[]));
    Assign([defaults, options.GetOr(map[])])
  }

  /** `getBrowserType(browserName)`: the switch over the three names, throwing otherwise. */
  function GetBrowserType(browserName: string): (r: Result<BrowserName, string>)
    ensures r.Success? ==> r.value.Name() == browserName
    ensures r.Failure? <==> browserName !in {"chromium", "firefox", "webkit"}
  {
    if browserName == "chromium" then Success(Chromium)
    else if browserName == "firefox" then Success(Firefox)
    else if browserName == "webkit" then Success(Webkit)
    else Failure("Unsupported browser: " + browserName)
  }

  /** `getBrowserFromEnv()`: the lower-cased BROWSER variable if it names a browser. */
  function GetBrowserFromEnv(env: Env): (r: BrowserName)
    ensures "BROWSER" in env && Lower(env["BROWSER"]) in {"chromium", "firefox", "webkit"} ==>
              r.Name() == Lower(env["BROWSER"])
    ensures !("BROWSER" in env && Lower(env["BROWSER"]) in {"chromium", "firefox", "webkit"}) ==>
              r == Chromium
  {
    if "BROWSER" in env then
      var browserEnv := Lower(env["BROWSER"]);
      if browserEnv == "firefox" then Firefox
      else if browserEnv == "webkit" then Webkit
      else if browserEnv == "chromium" then Chromium
      else Chromium
    else Chromium
  }

  /** Every browser name selects its own browser type. */
  lemma BrowserTypeRoundTrip(b: BrowserName)
    ensures GetBrowserType(b.Name()) == Success(b)
  {
  }

  /** Caller options override the defaults key by key; absent keys keep the default. */
  lemma LaunchOptionsOverride(browserName: BrowserName, options: Option<LaunchOptions>, env: Env)
    ensures var r := EffectiveLaunchOptions(browserName, options, env);
      && Headless in r && Args in r
      && (options.Some? && Headless in options.value ==> r[Headless] == options.value[Headless])
      && (options.Some? && Args in options.value ==> r[Args] == options.value[Args])
      && ((options.None? || Headless !in options.value) ==> r[Headless] == Bool(HeadlessFromEnv(env)))
      && ((options.None? || Args !in options.value) ==>
            r[Args] == List(if browserName == Chromium then [Str("--start-maximized")] else []))
      && (options.Some? ==> forall k :: k in options.value ==> k in r && r[k] == options.value[k])
  {
    var defaults := map[
      Headless := Bool(HeadlessFromEnv(env)),
      Args := List(if browserName == Chromium then [Str("--start-maximized")] else [])];
    AssignPair(defaults, options.GetOr(map[]));
  }

  /** The entries of a cache whose browser is still connected. */
  ghost function ConnectedEntries(m: map<CacheKey, Browser>): (r: map<CacheKey, Browser>)
    reads m.Values
    ensures forall k :: k in r <==> k in m && m[k].connected
    ensures forall k :: k in r ==> r[k] == m[k]
  {
    map k | k in m && m[k].connected :: m[k]
  }

  class BrowserFactory {
    /** The static `instances` map. */
    var instances: map<CacheKey, Browser>
    /** Every browser this factory launched, in order. */
    ghost var launched: seq<Browser>

    constructor ()
      ensures instances == map[] && launched == []
    {
      instances := map[];
      launched := [];
    }

    /**
     * `launch(browserName = 'chromium', options?, reuse = false)`, with the environment
     * `HEADLESS` is read from as the first argument.
     */
    method Launch(env: Env, browserName: BrowserName := Chromium, options: Option<LaunchOptions> := None,
                  reuse: bool := false)
      returns (browser: Browser)
      modifies this
      ensures var key := KeyOf(browserName, options);
        if reuse && key in old(instances) && old(instances[key].connected) then
          // reuse: the cached browser, nothing launched, nothing changed
          && browser == old(instances[key])
          && instances == old(instances) && launched == old(launched)
        else
          // a fresh, connected browser with the layered options
          && fresh(browser) && browser.connected && browser.closeCalls == 0
          && browser.engine == browserName
          && browser.launchOptions == EffectiveLaunchOptions(browserName, options, env)
          && launched == old(launched) + [browser]
          // cached under the key only when reuse is asked for
          && instances == (if reuse then old(instances)[key := browser] else old(instances))
    {
      var cacheKey := KeyOf(browserName, options);
      if reuse && cacheKey in instances {
        var existingBrowser := instances[cacheKey];
        if existingBrowser.connected {
          return existingBrowser;
        } else {
          instances := instances - {cacheKey};
        }
      }
      var browserType := GetBrowserType(browserName.Name());
      BrowserTypeRoundTrip(browserName);
      browser := new Browser.Launch(browserType.value, EffectiveLaunchOptions(browserName, options, env));
      launched := launched + [browser];
      if reuse {
        instances := instances[cacheKey := browser];
      }
    }

    /** `close(browser)`: closes a connected browser, and does nothing otherwise. */
    static method Close(browser: Browser?)
      modifies browser
      ensures browser != null ==> !browser.connected
      ensures browser != null ==>
                browser.closeCalls == old(browser.closeCalls) + (if old(browser.connected) then 1 else 0)
    {
      if browser != null && browser.connected {
        browser.Close();
      }
    }

    /** `closeAll()`: closes every connected cached browser, then empties the cache. */
    method CloseAll()
      modifies this, instances.Values
      ensures instances == map[] && launched == old(launched)
      ensures forall b :: b in old(instances).Values ==> !b.connected
      ensures forall b :: b in old(instances).Values ==>
                b.closeCalls == old(b.closeCalls) + (if old(b.connected) then 1 else 0)
    {
      var pending := instances.Values;
      while pending != {}
        invariant pending <= old(instances).Values
        invariant instances == old(instances) && launched == old(launched)
        invariant forall b :: b in old(instances).Values - pending ==> !b.connected
        invariant forall b :: b in old(instances).Values - pending ==>
                    b.closeCalls == old(b.closeCalls) + (if old(b.connected) then 1 else 0)
        invariant forall b :: b in pending ==> b.connected == old(b.connected) && b.closeCalls == old(b.closeCalls)
        decreases pending
      {
        var b :| b in pending;
        if b.connected {
          b.Close();
        }
        pending := pending - {b};
      }
      instances := map[];
    }

    /** `cleanup()`: removes exactly the entries whose browser is disconnected. */
    method Cleanup()
      modifies this
      ensures instances == ConnectedEntries(old(instances)) && launched == old(launched)
    {
      var keys := instances.Keys;
      while keys != {}
        invariant keys <= old(instances).Keys
        invariant forall k :: k in instances <==>
                    k in old(instances) && (k in keys || old(instances)[k].connected)
        invariant forall k :: k in instances ==> instances[k] == old(instances)[k]
        invariant launched == old(launched)
        decreases keys
      {
        var key :| key in keys;
        if !instances[key].connected {
          instances := instances - {key};
        }
        keys := keys - {key};
      }
    }
  }

  /** Two calls with reuse and a connected browser under the key give the same browser. */
  method ReuseReturnsSameBrowser(factory: BrowserFactory, name: BrowserName, options: Option<LaunchOptions>, env: Env)
    returns (first: Browser, second: Browser)
    modifies factory
    ensures first == second
    ensures |factory.launched| <= |old(factory.launched)| + 1
  {
    first := factory.Launch(env, name, options, true);
    second := factory.Launch(env, name, options, true);
  }

  /** Without reuse, two calls never return the same browser. */
  method NoReuseLaunchesTwice(factory: BrowserFactory, name: BrowserName, options: Option<LaunchOptions>, env: Env)
    returns (first: Browser, second: Browser)
    modifies factory
    ensures first != second
    ensures factory.instances == old(factory.instances)
    ensures factory.launched == old(factory.launched) + [first, second]
  {
    first := factory.Launch(env, name, options, false);
    second := factory.Launch(env, name, options, false);
  }

  /** Closing twice closes once: the second close finds the browser disconnected. */
  method CloseTwice(browser: Browser)
    modifies browser
    ensures !browser.connected
    ensures browser.closeCalls == old(browser.closeCalls) + (if old(browser.connected) then 1 else 0)
  {
    BrowserFactory.Close(browser);
    BrowserFactory.Close(browser);
  }
}
