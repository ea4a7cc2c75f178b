/**
 * The Cucumber world: the per-scenario record the hooks and steps share. Its handles
 * are set step by step; a ghost log records the requests and artifacts the hooks
 * produce, in order.
 */
module Worlds {
  import opened Values
  import opened Playwright
  import opened LoginRequests
  import opened CommonHeaders

  /** An effect of a hook that the scenario's outcome depends on, in the order it happened. */
  datatype Event =
    | LoginPosted(url: string, payload: LoginRequest, headers: Headers)
    | ScreenshotTaken(path: string)
    | TraceSaved(path: string)
    | TraceDiscarded
    | BrowserClosed

  class World {
    var browser: Browser?
    var context: Context?
    var page: Page?
    /** Set by the login steps; `undefined` until then. */
    var userId: Value
    /** Set by the listing steps; `undefined` until then. */
    var createdListingId: Value
    ghost var events: seq<Event>

    constructor ()
      ensures browser == null && context == null && page == null
      ensures userId == Undefined && createdListingId == Undefined && events == []
    {
      browser := null;
      context := null;
      page := null;
      userId := Undefined;
      createdListingId := Undefined;
      events := [];
    }
  }
}
