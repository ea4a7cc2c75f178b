# A verified model of the cub-demo test harness core

This project models the core of a Playwright + Cucumber test harness for a property-listing
site. The harness launches and caches browsers and browser contexts. Its Cucumber hooks open a
page, log a user in and tear the scenario down. It also builds API payloads and headers for the
UMS, BFF-listing and AME services, and looks up listing codes by their English or Vietnamese
names. Dafny proves properties of each part.

Layout, one module per file:

- `wrappers.dfy` — `Option` and `Result`. A thrown error becomes a `Failure`.
- `text.dfy` — the JavaScript string built-ins the core relies on: ASCII `toLowerCase`, `trim`
  with ECMAScript's whitespace set, and `startsWith`.
- `values.dfy` — JavaScript values (`undefined`, `null`, booleans, numbers, strings, arrays,
  objects, dates), truthiness, `??`, `||`, and object spread / `Object.assign` as layered map
  union.
- `playwright.dfy` — stand-ins for Playwright's `Browser`, `BrowserContext` and `Page` handles,
  as classes with the flags the core reads (connected, tracing, closed), plus the `use` block
  of `playwright.config.ts` (`UseConfig`, `ShippedConfig`).
- `listing_constants.dfy` — `ListingConstants`: codes, name tables and the three lookups.
- `browser_factory.dfy` — `BrowserFactories`: the browser cache as a class whose methods update
  `instances`. `closeAll` and `cleanup` are loops with invariants.
- `context_factory.dfy` — `ContextFactories`: option layering as functions, and the context
  cache as a class.
- `page_factory.dfy` — `PageFactories`: the per-page page-object cache.
- `world.dfy`, `hooks.dfy` — the Cucumber world and its three hooks. The world's ghost `events`
  log records what the hooks did, in order.
- `common_headers.dfy`, `login_request.dfy`, `listing_request.dfy`, `payload_factory.dfy` —
  header groups and presets, request ids, and the payload builders.
- `step_helpers.dfy`, `android_config.dfy`, `urls.dfy` — the step guards, the page-URL
  lookup, the Android environment switches and the staging URLs.

The environment, the clock and `Math.random` are parameters:

- `process.env` is an `Env` map.
- `Date.now()` or `new Date()` is a `Timestamp` (days and milliseconds).
- The 31 draws of `generateRequestId` are a sequence of values below 16.
- What the sign-in endpoint answers is a status parameter.

The hooks do only what their code does:

- The `@web-ui` hook ignores `@browser` and `@device` tags.
- The `@authorized` hook reads one credentials file and stores no session.
- The After hook closes only the browser, with no error handling around the artifacts.

## Model

| member | source | states |
|---|---|---|
| ListingConstants.GetPropertyType | src/types/listing-constants.ts:215-224 | the name is lower-cased and trimmed; SELL exactly for sell/bán/ban, RENT exactly for rent/thuê/thue, otherwise the "unknown property type" error carrying the name as written |
| ListingConstants.GetCategoryCode | src/types/listing-constants.ts:229-246 | an unknown property type fails first; SELL consults only the sell table and RENT only the rent table; a missing category fails with that table's error |
| ListingConstants.GetVipType | src/types/listing-constants.ts:251-260 | succeeds exactly when the normalized name is in the VIP table, always with one of the four VIP codes; otherwise the "unknown VIP type" error |
| ListingConstants.PropertyTypeIgnoresCaseAndPadding | src/types/listing-constants.ts:216-217 | surrounding whitespace and ASCII case never change a property-type lookup |
| ListingConstants.PropertyTypeCodes | src/types/listing-constants.ts:85-95 | the property-type lookup yields only SELL (38) or RENT (49) |
| ListingConstants.ApartmentCodeDependsOnPropertyType | src/types/listing-constants.ts:229-246 | "apartment" is 324 under sell and 326 under rent |
| ListingConstants.LandIsSellOnly | src/types/listing-constants.ts:97-180 | "land" resolves under sell and is rejected by the rent table |
| ListingConstants.CondotelIsSellOnly | src/types/listing-constants.ts:97-180 | "condotel" resolves under sell and is rejected by the rent table |
| ListingConstants.OfficeIsRentOnly | src/types/listing-constants.ts:97-180 | "office" resolves under rent and is rejected by the sell table |
| ListingConstants.RoomIsRentOnly | src/types/listing-constants.ts:97-180 | "room" resolves under rent and is rejected by the sell table |
| ListingConstants.VipTierEnglishNames | src/types/listing-constants.ts:184-210 | "normal" is the regular tier (5), "gold" the gold tier (1) |
| ListingConstants.VipTierVietnameseNames | src/types/listing-constants.ts:184-210 | "bạc" is silver (3), "kim cương" diamond (0), diacritics kept |
| Text.NormalizeIgnoresCaseAndPadding | src/types/listing-constants.ts:216 | `toLowerCase().trim()` gives the same key for any whitespace padding and any ASCII-case variant |
| Text.NormalizeIdempotent | src/types/listing-constants.ts:216 | normalizing an already normalized name changes nothing |
| Text.NormalFormFixed | src/types/listing-constants.ts:216 | a lower-case name without outer whitespace is its own normal form |
| Values.Coalesce | src/core/context.factory.ts:27-28 | `??` keeps a value unless it is null or undefined |
| Values.Or | src/core/context.factory.ts:103 | `\|\|` keeps a truthy value and takes the fallback otherwise |
| Values.Assign | src/apis/common-headers.ts:55-57 | `Object.assign({}, ...groups)` has exactly the keys of all groups |
| Values.AssignPicksLatest | src/apis/common-headers.ts:55-57 | each key takes its value from the last group that has it |
| Values.AssignConcat | src/apis/common-headers.ts:55-57 | merging a concatenation is merging each part, then merging the two results |
| BrowserFactories.KeyOf | src/core/browser.factory.ts:28 | the cache key pairs the browser name with the options, absent options as `{}` |
| BrowserFactories.GetBrowserType | src/core/browser.factory.ts:61-72 | succeeds exactly for chromium, firefox and webkit, with the named engine; anything else is the "unsupported browser" error |
| BrowserFactories.EffectiveLaunchOptions | src/core/browser.factory.ts:45-49 | the launch options have exactly headless, args and the caller's keys |
| BrowserFactories.BrowserTypeRoundTrip | src/core/browser.factory.ts:61-72 | every browser name selects its own engine |
| BrowserFactories.LaunchOptionsOverride | src/core/browser.factory.ts:45-49 | launch options default headless to `HEADLESS !== 'false'` and args to `--start-maximized` for Chromium only; every caller option overrides its default |
| BrowserFactories.GetBrowserFromEnv | src/core/browser.factory.ts:101-107 | the lower-cased BROWSER variable when it names one of the three browsers, chromium otherwise |
| BrowserFactories.BrowserFactory.Launch | src/core/browser.factory.ts:23-56 | the name defaults to chromium and reuse to false; with reuse and a connected cached browser: that browser, nothing launched; otherwise a fresh connected browser with the layered options, cached under the key exactly when reuse is asked for (a disconnected entry is replaced) |
| BrowserFactories.BrowserFactory.Close | src/core/browser.factory.ts:77-82 | closes a connected browser once; a disconnected or absent one is left alone |
| BrowserFactories.BrowserFactory.CloseAll | src/core/browser.factory.ts:87-96 | every cached browser ends disconnected, each connected one closed exactly once, and the cache is emptied |
| BrowserFactories.BrowserFactory.Cleanup | src/core/browser.factory.ts:112-118 | the cache keeps exactly its entries whose browser is connected, with unchanged values |
| BrowserFactories.ReuseReturnsSameBrowser | src/core/browser.factory.ts:31-35 | two reusing launches with the same key return the same browser and launch at most one |
| BrowserFactories.NoReuseLaunchesTwice | src/core/browser.factory.ts:51-53 | two launches without reuse return two different browsers and leave the cache alone |
| BrowserFactories.CloseTwice | src/core/browser.factory.ts:77-82 | closing twice closes once |
| ContextFactories.DefaultOptions | src/core/context.factory.ts:25-34 | exactly viewport (null by default), ignoreHTTPSErrors (true by default) and recordVideo, which is undefined exactly when `video` is falsy |
| ContextFactories.DeviceConfig | src/core/context.factory.ts:81-98 | every profile sets a viewport and a user agent and no name; mobile and tablet set isMobile and hasTouch to true, desktop sets neither |
| ContextFactories.ContextOptionsFor | src/core/context.factory.ts:52-55 | the options `create` passes have the default keys plus the caller's, and every caller key keeps the caller's value |
| ContextFactories.DeviceOptions | src/core/context.factory.ts:102-106 | the options `createForDevice` passes always carry a name, a viewport and a user agent, and every caller key keeps the caller's value |
| ContextFactories.CallerOverridesDefaults | src/core/context.factory.ts:52-55 | in `create`, a caller option wins over the default of the same key, and the keys are the union of both |
| ContextFactories.DeviceLayering | src/core/context.factory.ts:102-106 | in `createForDevice`, caller options win over the device profile, which wins over the configuration defaults |
| ContextFactories.ProfileWins | src/core/context.factory.ts:81-106 | without caller options every profile key keeps its profile value |
| ContextFactories.MobileProfile | src/core/context.factory.ts:86-91 | a mobile context is mobile and touch with a 375x812 viewport |
| ContextFactories.TabletProfile | src/core/context.factory.ts:92-97 | a tablet context is mobile and touch with a 768x1024 viewport |
| ContextFactories.DesktopProfile | src/core/context.factory.ts:82-85 | a desktop context has a null viewport whatever the configuration says, and sets neither isMobile nor hasTouch |
| ContextFactories.DeviceContextName | src/core/context.factory.ts:103 | a device context is cached as "<device>-context" when the caller gives no name, and under the caller's name when it is truthy |
| ContextFactories.DeviceContextUndefinedName | src/core/context.factory.ts:103-105 | an explicit falsy `name` spread last undoes the default name, so the context is not cached |
| ContextFactories.AuthOptions | src/core/context.factory.ts:122-125 | storageState is the given path; every other key is the caller's, unchanged, and no key is added |
| ContextFactories.PermissionOptions | src/core/context.factory.ts:141-144 | permissions is the given list; every other key is the caller's, unchanged |
| ContextFactories.GeolocationOptions | src/core/context.factory.ts:162-166 | geolocation is the given point and permissions is exactly ['geolocation'], replacing any caller permissions; other keys unchanged |
| ContextFactories.CacheNameOf | src/core/context.factory.ts:63-65 | a context is cached exactly when its `name` option is truthy, under that name |
| ContextFactories.TraceOffStillTraces | src/core/context.factory.ts:58 | a trace setting of 'off' is truthy, so `create` still starts tracing when asked |
| ContextFactories.ShippedConfigRecordsVideo | src/core/context.factory.ts:29-32 | the shipped `video: 'off'` is truthy, so contexts record video |
| ContextFactories.ContextFactory.Create | src/core/context.factory.ts:43-68 | startTracing defaults to true; a fresh context on the browser with defaults-then-caller options, tracing exactly when asked and configured, added to the cache exactly under a truthy name |
| ContextFactories.ContextFactory.CreateForDevice | src/core/context.factory.ts:76-107 | the device defaults to desktop; `create` with the name, profile and caller layers, tracing on |
| ContextFactories.ContextFactory.CreateWithAuth | src/core/context.factory.ts:115-126 | `create` with the storage-state layer |
| ContextFactories.ContextFactory.CreateWithPermissions | src/core/context.factory.ts:134-145 | `create` with the permissions layer |
| ContextFactories.ContextFactory.CreateWithGeolocation | src/core/context.factory.ts:154-167 | `create` with the geolocation layer |
| ContextFactories.ContextFactory.CreatePage | src/core/context.factory.ts:174-178 | a fresh page in the given context |
| ContextFactories.ContextFactory.SaveAuthState | src/core/context.factory.ts:185-188 | records one storage-state save at the path, nothing else changes |
| ContextFactories.ContextFactory.StopTracing | src/core/context.factory.ts:195-203 | tracing stops; the trace is saved at the path exactly when the path is non-empty |
| ContextFactories.ContextFactory.Close | src/core/context.factory.ts:209-214 | a given context ends closed; its tracing flag, stopped traces and saved states are unchanged |
| ContextFactories.ContextFactory.Get | src/core/context.factory.ts:220-222 | the context cached under the name, none if there is none |
| ContextFactories.ContextFactory.CloseAll | src/core/context.factory.ts:227-233 | every cached context ends closed with its tracing flag, stopped traces and saved states unchanged, and the cache is emptied |
| ContextFactories.NamedContextIsCached | src/core/context.factory.ts:63-65 | a context created with a non-empty name is what `get` returns for it |
| PageFactories.KeysDistinct | src/pages/page.factory.ts:24-66 | the five cache keys are pairwise distinct |
| PageFactories.PageFactory.constructor | src/pages/page.factory.ts:17-19 | bound to the page, with an empty cache |
| PageFactories.PageFactory.GetOrCreate | src/pages/page.factory.ts:24-66 | the cached object for the key if there is one, otherwise a fresh object for the current page, then cached |
| PageFactories.PageFactory.Home | src/pages/page.factory.ts:24-29 | get-or-create under 'home' |
| PageFactories.PageFactory.PropertyPosting | src/pages/page.factory.ts:34-39 | get-or-create under 'propertyPosting' |
| PageFactories.PageFactory.PostDetail | src/pages/page.factory.ts:44-49 | get-or-create under 'postDetail' |
| PageFactories.PageFactory.ListingManagement | src/pages/page.factory.ts:54-59 | get-or-create under 'listingManagement' |
| PageFactories.PageFactory.LoginPage | src/pages/page.factory.ts:61-66 | get-or-create under 'loginPage' |
| PageFactories.PageFactory.ClearCache | src/pages/page.factory.ts:71-73 | the cache is empty and the page unchanged |
| PageFactories.PageFactory.UpdatePage | src/pages/page.factory.ts:78-81 | the page is replaced and the cache emptied |
| PageFactories.SameAccessorSameObject | src/pages/page.factory.ts:24-29 | calling the same accessor twice gives the same object |
| PageFactories.AccessorsDoNotInterfere | src/pages/page.factory.ts:24-49 | two accessors cache two objects of their own kinds under their own keys |
| PageFactories.ClearCacheForcesNewObject | src/pages/page.factory.ts:71-73 | after clearing, an accessor builds a new object |
| PageFactories.UpdatePageRebinds | src/pages/page.factory.ts:78-81 | after updating the page, accessors build objects on the new page |
| Worlds.World.constructor | src/support/world.ts:5-13 | a scenario starts with no handles, no ids and no events |
| Hooks.WebUiContextOptions | src/support/hooks.ts:23-30 | the options of the hook's context: the configuration's viewport and HTTPS flag as given, and a video directory exactly when `video` is truthy |
| Hooks.WebUiLaunchOptions | src/support/hooks.ts:16-17 | headless is the configured value, or false when it is null or undefined |
| Hooks.WebUiBefore | src/support/hooks.ts:12-46 | each of browser, context and page is created only when missing, an existing one is kept; a new context traces exactly when `trace` is truthy |
| Hooks.WebUiBeforeTwice | src/support/hooks.ts:15-43 | after the hook all three handles are set, and running it again keeps the same browser, context and page |
| Hooks.TakeLine | src/support/hooks.ts:56 | `.` stops at the first line terminator: the match is the longest prefix without one |
| Hooks.UserMatch | src/support/hooks.ts:56-57 | `/@user=(.+)/` captures a non-empty value without line terminators |
| Hooks.FindUserTag | src/support/hooks.ts:54 | no tag found exactly when no tag starts with '@user='; otherwise the first such tag |
| Hooks.UserType | src/support/hooks.ts:51-58 | empty when no tag starts with '@user='; never contains a line terminator |
| Hooks.UserTagValue | src/support/hooks.ts:56-57 | the capture of '@user=' + v is v |
| Hooks.FirstUserTagWins | src/support/hooks.ts:54-58 | the first '@user=' tag decides the user type, later ones are ignored |
| Hooks.NoUserTagNoUser | src/support/hooks.ts:51-58 | without a '@user=' tag the user type stays empty |
| Hooks.BareUserTagIsEmpty | src/support/hooks.ts:54-58 | a bare '@user=' tag leaves the user type empty, so login is skipped |
| Hooks.AuthorizedBefore | src/support/hooks.ts:49-79 | no user type: success, nothing posted; unknown type: the credentials error; no page: fails before posting; otherwise exactly one sign-in post, succeeding exactly on a 2xx status |
| Hooks.LoginPayloadForgetsSession | src/apis/models/login.request.ts:24-34 | the hook's login posts the user's name and password unchanged with `isRemember: 0` |
| Hooks.Sanitize | src/support/hooks.ts:85 | same length; ASCII letters and digits kept in place, every other character becomes '_' |
| Hooks.SanitizeIdempotent | src/support/hooks.ts:85 | sanitizing twice is sanitizing once |
| Hooks.ScreenshotExactlyWhen | src/support/hooks.ts:89-100 | a screenshot is taken exactly when there is a page and the setting is 'on', or 'only-on-failure' with a failed scenario |
| Hooks.TeardownPlan | src/support/hooks.ts:82-123 | at most three steps, none of them a login, and nothing at all for a world without page, context or browser |
| Hooks.TraceExactlyWhen | src/support/hooks.ts:103-117 | with a context and a truthy trace setting, the trace is saved exactly for 'on', or 'retain-on-failure' with a failed scenario, and discarded otherwise |
| Hooks.BrowserClosedLast | src/support/hooks.ts:119-122 | the browser is closed exactly when there is one, as the last step |
| Hooks.ScreenshotBeforeTrace | src/support/hooks.ts:89-117 | the screenshot precedes anything done to the trace |
| Hooks.ShippedTeardown | playwright.config.ts:13-14 | with the shipped settings a full world always gets a screenshot, a saved trace and a closed browser |
| Hooks.TakeScreenshot | src/support/hooks.ts:89-100 | the screenshot step of the After hook, at `test-results/screenshots/<name>-<timestamp>.png` |
| Hooks.StopTrace | src/support/hooks.ts:103-117 | the trace step of the After hook, saving at `test-results/tracing/<name>-<timestamp>.zip` or discarding; the context stays open and its saved states are unchanged |
| Hooks.CloseBrowser | src/support/hooks.ts:119-122 | the browser step of the After hook |
| Hooks.After | src/support/hooks.ts:82-123 | the hook's events are exactly the teardown plan for the world's handles, and the handles and ids are kept; the context stays open with its saved states unchanged, and its traces change only by the trace step |
| StepHelpers.ValidatePage | src/utils/step-helpers.ts:9-13 | fails exactly when there is no page |
| StepHelpers.ValidateUserId | src/utils/step-helpers.ts:15-19 | fails exactly when the user id is falsy |
| StepHelpers.ValidateCreatedListing | src/utils/step-helpers.ts:21-26 | returns the listing id exactly when it is truthy |
| StepHelpers.ValidatePageAndUserId | src/utils/step-helpers.ts:28-31 | succeeds exactly with a page and a truthy user id; the page is checked first |
| StepHelpers.ZeroUserIdIsRejected | src/utils/step-helpers.ts:16 | a user id of 0 is rejected |
| StepHelpers.GetPageUrl | src/utils/step-helpers.ts:37-50 | 'LCP', 'LoginPage' and 'Home' map to their URLs; any other name is the "not found in URL mappings" error |
| StepHelpers.PageNamesAreCaseSensitive | src/utils/step-helpers.ts:45 | other spellings such as 'lcp' are not mapped |
| AndroidConfig.IsAndroidMode | src/configs/android.config.ts:66-68 | exactly when ANDROID is 'true' or PLATFORM is 'android' |
| AndroidConfig.AndroidModeIsCaseSensitive | src/configs/android.config.ts:66-68 | 'TRUE' and 'Android' do not switch Android mode on |
| AndroidConfig.GetAndroidDevice | src/configs/android.config.ts:73-75 | ANDROID_DEVICE when it is non-empty, 'android' otherwise |
| AndroidConfig.Adb | src/configs/android.config.ts:46-53 | port 5037; the device serial is ANDROID_DEVICE_SERIAL, or empty |
| CommonHeaders.MergeHeadersLastWins | src/apis/common-headers.ts:55-57 | a header takes the value of the last group that sets it |
| CommonHeaders.MergeHeaders | src/apis/common-headers.ts:55-57 | a header is in the merge exactly when some group sets it |
| CommonHeaders.MergeHeadersNested | src/apis/common-headers.ts:55-57 | merging two merges is merging all groups in order |
| CommonHeaders.FillConforms | src/apis/common-headers.ts:63-67 | filling a template keeps its length and every fixed character; 'x' becomes a hex digit and 'y' one of 8, 9, a, b |
| CommonHeaders.VariantDigit | src/apis/common-headers.ts:65 | `(r & 0x3 \| 0x8)` in hex is one of 8, 9, a, b |
| CommonHeaders.TemplatePlaceholders | src/apis/common-headers.ts:63 | the template has 31 placeholders, so 31 draws fill it |
| CommonHeaders.GenerateRequestId | src/apis/common-headers.ts:62-68 | 36 characters, hyphens at 8, 13, 18 and 23, the version digit '4' at 14, the variant digit at 19, lower-case hex elsewhere |
| CommonHeaders.JsonPresetKeys | src/apis/common-headers.ts:77-110 | merging base, PropertyGuru, CORS and the JSON content type keeps every key of the first three and sets Content-Type to application/json |
| CommonHeaders.Ums | src/apis/common-headers.ts:77-84 | every base, PropertyGuru and CORS key, and Content-Type application/json |
| CommonHeaders.BffListing | src/apis/common-headers.ts:89-98 | the preset sets a content type and an X-requestId; their values and the other keys are stated by `CommonHeaders.BffListingKeys` |
| CommonHeaders.Sellernet | src/apis/common-headers.ts:103-110 | every base, PropertyGuru and CORS key, and Content-Type application/json |
| CommonHeaders.UmsIsSellernet | src/apis/common-headers.ts:77-110 | the UMS and Sellernet presets are the same headers |
| CommonHeaders.BffListingKeys | src/apis/common-headers.ts:89-98 | the BFF preset has every base, PropertyGuru, CORS and security key, the JSON content type and the generated request id |
| LoginRequests.CreateLoginRequest | src/apis/models/login.request.ts:24-34 | name and password unchanged; isRemember is 1 exactly when remember-me is true, 0 otherwise |
| LoginRequests.RememberMeDefaultsToFalse | src/apis/models/login.request.ts:27 | leaving remember-me out is passing false |
| ListingRequests.AddDays | src/apis/models/create-listing.request.ts:113-114 | moves a date by whole days, keeping the time of day |
| ListingRequests.RequiredListingFields.AsPayload | src/apis/models/bff-listing.request.ts:8-23 | the required-field record as an object has exactly the fourteen required keys |
| ListingRequests.DefaultListingOptionalFields | src/apis/models/bff-listing.request.ts:108-152 | exactly the non-required fields; the start date is the load time and the end date ten days after it (one clock read, see "## Left out") |
| ListingRequests.CreateListingRequest | src/apis/models/create-listing.request.ts:84-174 | every listing field is set; the values are stated by `ListingRequests.CopiesRequiredFields`, `PricingDefaults`, `NumericDefaults`, `ListingPeriod`, `FixedNumbers`, `FixedObjects` and `PayloadFactory.CreateListingRequestIsFactoryListing` |
| ListingRequests.CopiesRequiredFields | src/apis/models/create-listing.request.ts:117-131 | the fourteen required parameters are copied unchanged, `description` into `descContent` |
| ListingRequests.PricingDefaults | src/apis/models/create-listing.request.ts:134-145 | viptype is the parameter unless absent or empty, else "3"; unitPrice the parameter unless absent or 0, else 2 |
| ListingRequests.NumericDefaults | src/apis/models/create-listing.request.ts:137-156 | each numeric optional is its parameter, or 0 when absent or 0 |
| ListingRequests.ListingPeriod | src/apis/models/create-listing.request.ts:112-136 | the listing starts now and ends ten days later at the same time of day |
| ListingRequests.FixedNumbers | src/apis/models/create-listing.request.ts:141-164 | period -1, draftId 0 and productId 0 whatever the parameters |
| ListingRequests.FixedObjects | src/apis/models/create-listing.request.ts:140-172 | contactPhone and listingModel null, auto-renew settings {totalCount 0, actionType 1} |
| PayloadFactory.CreateLogin | src/apis/models/payload.factory.ts:23-33 | name and password unchanged; isRemember 1 exactly when remember-me is true, else the default 0 |
| PayloadFactory.CreateLoginIsCreateLoginRequest | src/apis/models/payload.factory.ts:23-33 | the factory's login payload equals `createLoginRequest`'s |
| PayloadFactory.CreateListing | src/apis/models/payload.factory.ts:38-47 | every listing field is present, and every optional field the caller gives keeps the caller's value |
| PayloadFactory.CreateListingLayers | src/apis/models/payload.factory.ts:38-47 | a field comes from the optional fields if given there, else the required fields, else the load-time defaults |
| PayloadFactory.CreateListingRequestIsFactoryListing | src/apis/models/create-listing.request.ts:111-174 | `createListingRequest` equals the factory's `createListing` with the defaulted optionals, when both are evaluated at the same time |
| PayloadFactory.NoOptionalsGiveDefaults | src/apis/models/payload.factory.ts:38-47 | with no optional parameters, `createListingRequest` equals `createListing` with no optional fields |
| PayloadFactory.FallbackIsDefault | src/apis/models/bff-listing.request.ts:108-152 | with no optional parameters, each defaulted field equals the default record's value for it |
| PayloadFactory.DefaultPublishRequest | src/apis/models/ame.request.ts:21-27 | exactly productId, actorId, ownerId, correlationId and note; the three ids are 0, the correlation id is the generated request id and the note is the publish note |
| PayloadFactory.DefaultSuspendRequest | src/apis/models/ame.request.ts:54-68 | the publish keys plus explanations; the three ids are 0, the correlation id is the generated request id, the note is the suspend note and explanations is the one set-up entry |
| PayloadFactory.DefaultMarkReviewRequest | src/apis/models/ame.request.ts:84-90 | exactly productId, actorId, ownerId, correlationId and note; the three ids are 0, the correlation id is the generated request id and the note is the mark-review note |
| PayloadFactory.CreatePublishListing | src/apis/models/payload.factory.ts:52-57 | the keys of the default and the parameters; a given parameter wins, every other key keeps the default |
| PayloadFactory.CreateSuspendListing | src/apis/models/payload.factory.ts:62-67 | the keys of the default and the parameters; a given parameter wins, every other key keeps the default |
| PayloadFactory.CreateMarkReviewListing | src/apis/models/payload.factory.ts:72-77 | the keys of the default and the parameters; a given parameter wins, every other key keeps the default |
| PayloadFactory.EmptyParamsGiveDefaults | src/apis/models/payload.factory.ts:52-77 | with no parameters each AME builder returns its default record |
| PayloadFactory.OneFieldOverridesOnlyItself | src/apis/models/payload.factory.ts:52-77 | one parameter replaces exactly its own field of the default |
| PayloadFactory.AmeParamsOverride | src/apis/models/payload.factory.ts:52-77 | a given parameter always wins; an absent one keeps the default |
| PayloadFactory.DefaultCorrelationIdShape | src/apis/models/ame.request.ts:21-27 | the default correlation id is a well-formed version-4 request id |

## Left out

- Playwright itself is not modelled. Launching, navigation, screenshots, traces, the network and
  the browsers are stand-in classes that record what was asked of them. Errors Playwright would
  throw (a context on a closed browser, stopping a trace that never started) are not modelled.
- Concurrency: `Promise.all` in `closeAll` is a sequential loop over the cached values, and
  awaiting is not modelled.
- The console logging of every file is left out.
- The credentials file read by `DataLoader.loadJson` is a parameter (a map of users). The
  sign-in response is a status parameter. `UMSApi.login` throws on a non-2xx status before
  the hook's own check; the model reports that as `LoginFailed(status)`.
- `this.page!` on a missing page makes the request fail with a TypeError; the model reports
  `PageNotInitialized` and posts nothing.
- `goToPage` and `scrollToBottom` (step-helpers.ts) drive the browser and are left out.
- `AndroidConfig.devices` spreads Playwright's device descriptors, which are foreign data;
  only the ADB settings, the package name and the two environment functions are modelled.
- BrowserFactories.KeyOf: the source key is the string `${name}-${JSON.stringify(options)}`,
  which depends on key order. The model keys by the pair, so two option objects with the same
  entries in a different order share a cache entry here but not in the source. `JSON.stringify`
  also drops keys whose value is undefined, so `{ headless: undefined }` and `{}` share a cache
  entry in the source but not here.
- ListingRequests.DefaultListingOptionalFields: the source reads the clock twice, once for
  `startDate` and once more for `endDate`. The model takes both reads at one load time, so its
  ten-day gap is exact. In the source the end date can be later by the time between the reads.
- Dates: `toISOString` is abstracted to a `Date(Timestamp)` value, and `setDate(+10)` to
  adding ten days (no calendar or time-zone arithmetic).
- Numbers are integers. Geolocation coordinates, prices and areas are not floating point.
- Strings are sequences of code points. JavaScript counts UTF-16 units, so a character outside
  the basic plane becomes two '_' in the source's sanitized test name and one here.
  `toLowerCase` is modelled for ASCII letters only.
- In the `@web-ui` hook's context options, a `viewport` or `ignoreHTTPSErrors` set to undefined is kept as an
  explicit undefined entry, and Playwright's own defaulting of it is not modelled.
- Lookups use own keys only, so a name such as "constructor" (an `Object.prototype` key) is
  unknown here, while `Record` indexing in the source would find the inherited member.
- The TypeScript `Partial`/`Omit` typing of the payload parameters is not enforced: a caller
  may pass any field.
- That `mergeHeaders` does not mutate its inputs holds trivially, because maps are values.
