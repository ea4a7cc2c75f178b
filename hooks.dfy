/**
 * The Cucumber hooks: lazy browser/context/page setup for `@web-ui` scenarios, login
 * for `@authorized` scenarios, and the teardown after every scenario (screenshot, then
 * trace, then browser close).
 */
module Hooks {
  import opened Wrappers
  import V = Values
  import opened Text
  import opened Playwright
  import opened LoginRequests
  import H = CommonHeaders
  import opened Worlds
  import WebUrls

  // ---------------------------------------------------------------------------
  // @web-ui

  /** The options the `@web-ui` hook passes to `newContext`; each key is always present. */
  function WebUiContextOptions(config: UseConfig): (r: ContextOptions)
    ensures r.Keys == {Viewport, IgnoreHttpsErrors, RecordVideo}
    ensures r[Viewport] == config.viewport && r[IgnoreHttpsErrors] == config.ignoreHttpsErrors
    ensures r[RecordVideo].Obj? <==> V.Truthy(config.video)
    ensures !V.Truthy(config.video) ==> r[RecordVideo] == V.Undefined
  {
    map[
      Viewport := config.viewport,
      IgnoreHttpsErrors := config.ignoreHttpsErrors,
      RecordVideo := if V.Truthy(config.video) then V.Obj(map["dir" := V.Str("test-results/videos")]) else V.Undefined]
  }

  /** The launch options of the `@web-ui` hook: `headless`, defaulting to false. */
  function WebUiLaunchOptions(config: UseConfig): (r: LaunchOptions)
    ensures r.Keys == {Headless}
    ensures V.Nullish(config.headless) ==> r[Headless] == V.Bool(false)
    ensures !V.Nullish(config.headless) ==> r[Headless] == config.headless
  {
    map[Headless := V.Coalesce(config.headless, V.Bool(false))]
  }

  /**
   * The `@web-ui` Before hook: creates a chromium browser, a context on it and a page
   * on that, each only when the world does not have one yet.
   */
  method WebUiBefore(world: World, config: UseConfig)
    modifies world
    ensures world.userId == old(world.userId) && world.createdListingId == old(world.createdListingId)
    ensures world.events == old(world.events)
    ensures old(world.browser) != null ==> world.browser == old(world.browser)
    ensures old(world.browser) == null ==>
              && world.browser != null && fresh(world.browser) && world.browser.connected
              && world.browser.engine == Chromium && world.browser.launchOptions == WebUiLaunchOptions(config)
    ensures old(world.context) != null ==> world.context == old(world.context)
    ensures old(world.context) == null ==>
              && world.context != null && fresh(world.context) && world.context.browser == world.browser
              && world.context.options == WebUiContextOptions(config)
              && world.context.tracing == V.Truthy(config.trace) && !world.context.closed
    ensures old(world.page) != null ==> world.page == old(world.page)
    ensures old(world.page) == null ==>
              world.page != null && fresh(world.page) && world.page.context == world.context
  {
    if world.browser == null {
      world.browser := new Browser.Launch(Chromium, WebUiLaunchOptions(config));
    }
    if world.context == null {
      var context := new Context(world.browser, WebUiContextOptions(config));
      if V.Truthy(config.trace) {
        context.StartTracing();
      }
      world.context := context;
    }
    if world.page == null {
      world.page := new Page(world.context);
    }
  }

  /**
   * Running the `@web-ui` hook again changes nothing: the second run keeps the browser,
   * context and page (`b`, `c`, `p`) the first run left in the world.
   */
  method WebUiBeforeTwice(world: World, config: UseConfig) returns (b: Browser?, c: Context?, p: Page?)
    modifies world
    ensures b != null && c != null && p != null
    ensures world.browser == b && world.context == c && world.page == p
  {
    WebUiBefore(world, config);
    b, c, p := world.browser, world.context, world.page;
    WebUiBefore(world, config);
  }

  // ---------------------------------------------------------------------------
  // @authorized: the @user= tag

  const UserTagPrefix := "@user="

  /** The characters `.` does not match in a JavaScript regular expression. */
  predicate IsLineTerminator(c: char) {
    c == '\n' || c == '\r' || c == '\U{2028}' || c == '\U{2029}'
  }

  predicate NoLineTerminator(s: string) { forall i :: 0 <= i < |s| ==> !IsLineTerminator(s[i]) }

  /** The greedy `.+`: the longest prefix without a line terminator. */
  function TakeLine(s: string): (r: string)
    ensures |r| <= |s| && r == s[..|r|] && NoLineTerminator(r)
    ensures |r| < |s| ==> IsLineTerminator(s[|r|])
  {
    if s == [] || IsLineTerminator(s[0]) then [] else [s[0]] + TakeLine(s[1..])
  }

  /**
   * `s.match(/@user=(.+)/)?.[1]`: the capture of the leftmost position where
   * "@user=" is followed by at least one character other than a line terminator.
   */
  function UserMatch(s: string): (r: Option<string>)
    ensures r.Some? ==> r.value != [] && NoLineTerminator(r.value)
    decreases |s|
  {
    if |s| <= |UserTagPrefix| then None
    else if s[..|UserTagPrefix|] == UserTagPrefix && !IsLineTerminator(s[|UserTagPrefix|]) then
      Some(TakeLine(s[|UserTagPrefix|..]))
    else UserMatch(s[1..])
  }

  /** `tags.find(tag => tag.name.startsWith('@user='))` */
  function FindUserTag(tags: seq<string>): (r: Option<string>)
    ensures r.None? <==> forall i :: 0 <= i < |tags| ==> !StartsWith(tags[i], UserTagPrefix)
    ensures r.Some? ==> exists i :: 0 <= i < |tags| && tags[i] == r.value && StartsWith(r.value, UserTagPrefix) &&
                          forall j :: 0 <= j < i ==> !StartsWith(tags[j], UserTagPrefix)
  {
    if tags == [] then None
    else if StartsWith(tags[0], UserTagPrefix) then Some(tags[0])
    else
      var r := FindUserTag(tags[1..]);
      assert forall i :: 1 <= i < |tags| ==> tags[i] == tags[1..][i - 1];
      r
  }

  /** The user type of a scenario: the regex capture of its first `@user=` tag, or "". */
  function UserType(tags: seq<string>): (r: string)
    ensures FindUserTag(tags).None? ==> r == ""
    ensures NoLineTerminator(r)
  {
    match FindUserTag(tags)
    case None => ""
    case Some(tag) =>
      match UserMatch(tag)
      case None => ""
      case Some(userType) => userType
  }

  /** A tag "@user=" + v, with v a non-empty single line, yields exactly v. */
  lemma UserTagValue(v: string)
    requires v != [] && NoLineTerminator(v)
    ensures UserMatch(UserTagPrefix + v) == Some(v)
  {
    var s := UserTagPrefix + v;
    assert s[..|UserTagPrefix|] == UserTagPrefix && s[|UserTagPrefix|..] == v;
    TakeLineWhole(v);
  }

  lemma {:induction false} TakeLineWhole(s: string)
    requires NoLineTerminator(s)
    ensures TakeLine(s) == s
  {
    if s != [] {
      TakeLineWhole(s[1..]);
    }
  }

  /**
   * The first `@user=` tag decides, even when a later one names another user: tags
   * before it without the prefix are skipped, tags after it are never read.
   */
  lemma FirstUserTagWins(before: seq<string>, v: string, after: seq<string>)
    requires forall i :: 0 <= i < |before| ==> !StartsWith(before[i], UserTagPrefix)
    requires v != [] && NoLineTerminator(v)
    ensures UserType(before + [UserTagPrefix + v] + after) == v
  {
    FindAfterSkipped(before, [UserTagPrefix + v] + after);
    assert before + [UserTagPrefix + v] + after == before + ([UserTagPrefix + v] + after);
    UserTagValue(v);
  }

  lemma {:induction false} FindAfterSkipped(before: seq<string>, rest: seq<string>)
    requires forall i :: 0 <= i < |before| ==> !StartsWith(before[i], UserTagPrefix)
    ensures FindUserTag(before + rest) == FindUserTag(rest)
  {
    if before == [] {
      assert before + rest == rest;
    } else {
      assert (before + rest)[0] == before[0];
      assert (before + rest)[1..] == before[1..] + rest;
      FindAfterSkipped(before[1..], rest);
    }
  }

  /** Without any `@user=` tag the user type is empty. */
  lemma NoUserTagNoUser(tags: seq<string>)
    requires forall i :: 0 <= i < |tags| ==> !StartsWith(tags[i], UserTagPrefix)
    ensures UserType(tags) == ""
  {
  }

  /** A bare "@user=" tag matches nothing, so it gives the empty user type. */
  lemma BareUserTagIsEmpty(tags: seq<string>)
    requires FindUserTag(tags) == Some(UserTagPrefix)
    ensures UserType(tags) == ""
  {
  }

  // ---------------------------------------------------------------------------
  // @authorized: the login

  /** An entry of the credentials file. */
  datatype User = User(username: string, password: string)

  /** What the `@authorized` hook throws. */
  datatype AuthError =
    | UnknownUserType(userType: string)
    /** `this.page!` was undefined: the request fails with a TypeError before it is sent. */
    | PageNotInitialized
    /** The UMS client's own `ok()` check, which throws before the hook's. */
    | LoginFailed(status: int)

  /** `response.ok()`: a 2xx status. */
  predicate IsOk(status: int) { 200 <= status <= 299 }

  /** The sign-in request `UMSApi.login(username, password)` posts. */
  function LoginEvent(user: User): Event {
    LoginPosted(WebUrls.BaseUrl + WebUrls.SignInEndpoint,
                CreateLoginRequest(user.username, user.password, Some(false)),
                H.Ums())
  }

  /**
   * The `@authorized` Before hook, given the scenario's tags, the parsed credentials
   * file and the status the sign-in endpoint answers with.
   */
  method AuthorizedBefore(world: World, tags: seq<string>, credentials: map<string, User>, loginStatus: int)
    returns (outcome: Result<(), AuthError>)
    modifies world
    ensures world.browser == old(world.browser) && world.context == old(world.context) && world.page == old(world.page)
    ensures world.userId == old(world.userId) && world.createdListingId == old(world.createdListingId)
    ensures UserType(tags) == "" ==> outcome == Success(()) && world.events == old(world.events)
    ensures UserType(tags) != "" && UserType(tags) !in credentials ==>
              outcome == Failure(UnknownUserType(UserType(tags))) && world.events == old(world.events)
    ensures UserType(tags) != "" && UserType(tags) in credentials && world.page == null ==>
              outcome == Failure(PageNotInitialized) && world.events == old(world.events)
    ensures UserType(tags) != "" && UserType(tags) in credentials && world.page != null ==>
              && world.events == old(world.events) + [LoginEvent(credentials[UserType(tags)])]
              && (outcome.Success? <==> IsOk(loginStatus))
              && (outcome.Failure? ==> outcome.error == LoginFailed(loginStatus))
  {
    var userType := UserType(tags);
    if userType == "" {
      return Success(());
    }
    if userType !in credentials {
      return Failure(UnknownUserType(userType));
    }
    var user := credentials[userType];
    if world.page == null {
      return Failure(PageNotInitialized);
    }
    world.events := world.events + [LoginEvent(user)];
    if !IsOk(loginStatus) {
      return Failure(LoginFailed(loginStatus));
    }
    outcome := Success(());
  }

  /** The login always posts `isRemember: 0`, the user's name and password unchanged. */
  lemma LoginPayloadForgetsSession(user: User)
    ensures LoginEvent(user).payload == LoginRequest(user.username, user.password, 0)
  {
  }

  // ---------------------------------------------------------------------------
  // After: the teardown

  /** Cucumber's `Status`. */
  datatype Status = Unknown | Passed | Skipped | Pending | Undefined | Ambiguous | Failed

  /** `pickle.name.replace(/[^a-z0-9]/gi, '_')` */
  function Sanitize(name: string): (r: string)
    ensures |r| == |name|
    ensures forall i :: 0 <= i < |r| ==> IsAsciiAlnum(r[i]) || r[i] == '_'
    ensures forall i :: 0 <= i < |r| ==> IsAsciiAlnum(name[i]) ==> r[i] == name[i]
  {
    seq(|name|, i requires 0 <= i < |name| => if IsAsciiAlnum(name[i]) then name[i] else '_')
  }

  /** Sanitising a sanitised name changes nothing. */
  lemma SanitizeIdempotent(name: string)
    ensures Sanitize(Sanitize(name)) == Sanitize(name)
  {
  }

  function ScreenshotPath(testName: string, timestamp: nat): string {
    "test-results/screenshots/" + testName + "-" + Decimal(timestamp) + ".png"
  }

  function TracePath(testName: string, timestamp: nat): string {
    "test-results/tracing/" + testName + "-" + Decimal(timestamp) + ".zip"
  }

  /** The screenshot policy: always for 'on', on failure for 'only-on-failure'. */
  predicate ShouldScreenshot(config: UseConfig, result: Option<Status>) {
    V.Truthy(config.screenshot) &&
    (config.screenshot == V.Str("on") || (config.screenshot == V.Str("only-on-failure") && result == Some(Failed)))
  }

  /** The trace policy: keep it for 'on', on failure for 'retain-on-failure'. */
  predicate ShouldSaveTrace(config: UseConfig, result: Option<Status>) {
    config.trace == V.Str("on") || (config.trace == V.Str("retain-on-failure") && result == Some(Failed))
  }

  /**
   * What the After hook does, in order, for a world with the given handles: the
   * screenshot, then stopping the trace (saving or discarding it), then closing the browser.
   */
  function TeardownPlan(hasPage: bool, hasContext: bool, hasBrowser: bool, config: UseConfig,
                        result: Option<Status>, testName: string, timestamp: nat): (r: seq<Event>)
    ensures |r| <= 3
    ensures forall e :: e in r ==> !e.LoginPosted?
    ensures !hasPage && !hasContext && !hasBrowser ==> r == []
  {
    (if hasPage && ShouldScreenshot(config, result) then [ScreenshotTaken(ScreenshotPath(testName, timestamp))] else [])
    + (if hasContext && V.Truthy(config.trace) then
         [if ShouldSaveTrace(config, result) then TraceSaved(TracePath(testName, timestamp)) else TraceDiscarded]
       else [])
    + (if hasBrowser then [BrowserClosed] else [])
  }

  /** A screenshot is taken exactly when there is a page and the policy asks for one. */
  lemma ScreenshotExactlyWhen(hasPage: bool, hasContext: bool, hasBrowser: bool, config: UseConfig,
                              result: Option<Status>, testName: string, timestamp: nat)
    ensures var plan := TeardownPlan(hasPage, hasContext, hasBrowser, config, result, testName, timestamp);
      ScreenshotTaken(ScreenshotPath(testName, timestamp)) in plan <==> hasPage && ShouldScreenshot(config, result)
    ensures var plan := TeardownPlan(hasPage, hasContext, hasBrowser, config, result, testName, timestamp);
      forall e :: e in plan && e.ScreenshotTaken? ==> e.path == ScreenshotPath(testName, timestamp)
  {
  }

  /**
   * With a context and a configured trace, the trace is saved exactly when the policy
   * keeps it and discarded otherwise; without either, tracing is not touched.
   */
  lemma TraceExactlyWhen(hasPage: bool, hasContext: bool, hasBrowser: bool, config: UseConfig,
                         result: Option<Status>, testName: string, timestamp: nat)
    ensures var plan := TeardownPlan(hasPage, hasContext, hasBrowser, config, result, testName, timestamp);
      TraceSaved(TracePath(testName, timestamp)) in plan <==>
        hasContext && V.Truthy(config.trace) && ShouldSaveTrace(config, result)
    ensures var plan := TeardownPlan(hasPage, hasContext, hasBrowser, config, result, testName, timestamp);
      TraceDiscarded in plan <==> hasContext && V.Truthy(config.trace) && !ShouldSaveTrace(config, result)
  {
  }

  /** The browser is closed exactly when there is one, and closing is the last step. */
  lemma BrowserClosedLast(hasPage: bool, hasContext: bool, hasBrowser: bool, config: UseConfig,
                          result: Option<Status>, testName: string, timestamp: nat)
    ensures var plan := TeardownPlan(hasPage, hasContext, hasBrowser, config, result, testName, timestamp);
      (BrowserClosed in plan <==> hasBrowser)
      && (hasBrowser ==> plan[|plan| - 1] == BrowserClosed)
      && (forall i :: 0 <= i < |plan| - 1 ==> plan[i] != BrowserClosed)
  {
  }

  /** The screenshot comes before anything done to the trace. */
  lemma ScreenshotBeforeTrace(hasPage: bool, hasContext: bool, hasBrowser: bool, config: UseConfig,
                              result: Option<Status>, testName: string, timestamp: nat, i: nat, j: nat)
    requires var plan := TeardownPlan(hasPage, hasContext, hasBrowser, config, result, testName, timestamp);
      i < |plan| && j < |plan| && plan[i].ScreenshotTaken? && (plan[j].TraceSaved? || plan[j].TraceDiscarded?)
    ensures i < j
  {
  }

  /**
   * With the shipped configuration (screenshot 'on', trace 'on'), every scenario with all
   * three handles gets a screenshot, a saved trace and a closed browser, whatever its result.
   */
  lemma ShippedTeardown(result: Option<Status>, testName: string, timestamp: nat)
    ensures TeardownPlan(true, true, true, ShippedConfig, result, testName, timestamp) ==
              [ScreenshotTaken(ScreenshotPath(testName, timestamp)), TraceSaved(TracePath(testName, timestamp)), BrowserClosed]
  {
  }

  /** The After hook's first step: the screenshot, when there is a page and the policy asks. */
  method TakeScreenshot(world: World, config: UseConfig, result: Option<Status>, testName: string, timestamp: nat)
    modifies world, world.page
    ensures world.browser == old(world.browser) && world.context == old(world.context) && world.page == old(world.page)
    ensures world.userId == old(world.userId) && world.createdListingId == old(world.createdListingId)
    ensures world.events == old(world.events) +
              (if world.page != null && ShouldScreenshot(config, result) then [ScreenshotTaken(ScreenshotPath(testName, timestamp))] else [])
    ensures world.page != null ==>
              world.page.screenshots == old(world.page.screenshots) +
                (if ShouldScreenshot(config, result) then [ScreenshotPath(testName, timestamp)] else [])
  {
    if world.page != null && V.Truthy(config.screenshot) {
      if ShouldScreenshot(config, result) {
        var path := ScreenshotPath(testName, timestamp);
        world.page.Screenshot(path);
        world.events := world.events + [ScreenshotTaken(path)];
      }
    }
  }

  /** The After hook's second step: stop a configured trace, saving it when the policy keeps it. */
  method StopTrace(world: World, config: UseConfig, result: Option<Status>, testName: string, timestamp: nat)
    modifies world, world.context
    ensures world.browser == old(world.browser) && world.context == old(world.context) && world.page == old(world.page)
    ensures world.userId == old(world.userId) && world.createdListingId == old(world.createdListingId)
    ensures world.events == old(world.events) +
              (if world.context != null && V.Truthy(config.trace) then
                 [if ShouldSaveTrace(config, result) then TraceSaved(TracePath(testName, timestamp)) else TraceDiscarded]
               else [])
    ensures world.context != null && V.Truthy(config.trace) ==>
              && !world.context.tracing
              && world.context.traceStops == old(world.context.traceStops) +
                   [if ShouldSaveTrace(config, result) then Some(TracePath(testName, timestamp)) else None]
    ensures world.context != null && !V.Truthy(config.trace) ==>
              world.context.tracing == old(world.context.tracing) && world.context.traceStops == old(world.context.traceStops)
    ensures world.context != null ==>
              world.context.closed == old(world.context.closed) && world.context.savedStates == old(world.context.savedStates)
  {
    if world.context != null && V.Truthy(config.trace) {
      if ShouldSaveTrace(config, result) {
        var path := TracePath(testName, timestamp);
        world.context.StopTracing(Some(path));
        world.events := world.events + [TraceSaved(path)];
      } else {
        world.context.StopTracing(None);
        world.events := world.events + [TraceDiscarded];
      }
    }
  }

  /** The After hook's last step: close the browser, when there is one. */
  method CloseBrowser(world: World)
    modifies world, world.browser
    ensures world.browser == old(world.browser) && world.context == old(world.context) && world.page == old(world.page)
    ensures world.userId == old(world.userId) && world.createdListingId == old(world.createdListingId)
    ensures world.events == old(world.events) + (if world.browser != null then [BrowserClosed] else [])
    ensures world.browser != null ==>
              !world.browser.connected && world.browser.closeCalls == old(world.browser.closeCalls) + 1
  {
    if world.browser != null {
      world.browser.Close();
      world.events := world.events + [BrowserClosed];
    }
  }

  /**
   * The After hook, at time `timestamp` (milliseconds since the epoch) and with the
   * scenario's result (if any) and name.
   */
  method After(world: World, config: UseConfig, result: Option<Status>, scenarioName: string, timestamp: nat)
    modifies world, world.page, world.context, world.browser
    ensures world.browser == old(world.browser) && world.context == old(world.context) && world.page == old(world.page)
    ensures world.userId == old(world.userId) && world.createdListingId == old(world.createdListingId)
    ensures world.events == old(world.events) +
              TeardownPlan(world.page != null, world.context != null, world.browser != null,
                           config, result, Sanitize(scenarioName), timestamp)
    ensures world.page != null ==>
              world.page.screenshots == old(world.page.screenshots) +
                (if ShouldScreenshot(config, result) then [ScreenshotPath(Sanitize(scenarioName), timestamp)] else [])
    ensures world.context != null && V.Truthy(config.trace) ==>
              && !world.context.tracing
              && world.context.traceStops == old(world.context.traceStops) +
                   [if ShouldSaveTrace(config, result) then Some(TracePath(Sanitize(scenarioName), timestamp)) else None]
    ensures world.context != null && !V.Truthy(config.trace) ==>
              world.context.tracing == old(world.context.tracing) && world.context.traceStops == old(world.context.traceStops)
    ensures world.context != null ==>
              world.context.closed == old(world.context.closed) && world.context.savedStates == old(world.context.savedStates)
    ensures world.browser != null ==>
              !world.browser.connected && world.browser.closeCalls == old(world.browser.closeCalls) + 1
  {
    var testName := Sanitize(scenarioName);
    TakeScreenshot(world, config, result, testName, timestamp);
    StopTrace(world, config, result, testName, timestamp);
    CloseBrowser(world);
  }
}
