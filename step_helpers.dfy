/** Precondition guards for step definitions, and the page-name to URL lookup. */
module StepHelpers {
  import opened Wrappers
  import opened Values
  import opened Worlds
  import WebUrls

  /** The errors the guards throw. */
  datatype StepError =
    | PageNotInitialized
    | UserIdNotFound
    | NoListingCreated
    | PageNotMapped(pageName: string)
  {
    function Message(): string {
      match this
      case PageNotInitialized => "Page is not initialized"
      case UserIdNotFound => "UserId not found. Please use @user tag to authenticate before using this step"
      case NoListingCreated =>
        "No listing has been created yet. Please create a listing first using \"I have a listing...\" step"
      case PageNotMapped(name) => "Page \"" + name + "\" not found in URL mappings"
    }
  }

  /** `validatePage(context)` */
  function ValidatePage(world: World): (r: Result<(), StepError>)
    reads world
    ensures r.Failure? <==> world.page == null
    ensures r.Failure? ==> r.error == PageNotInitialized
  {
    if world.page == null then Failure(PageNotInitialized) else Success(())
  }

  /** `validateUserId(context)`: any falsy id (absent, 0, "", null) is rejected. */
  function ValidateUserId(world: World): (r: Result<(), StepError>)
    reads world
    ensures r.Failure? <==> !Truthy(world.userId)
    ensures r.Failure? ==> r.error == UserIdNotFound
  {
    if !Truthy(world.userId) then Failure(UserIdNotFound) else Success(())
  }

  /** `validateCreatedListing(context)`: the stored id, when it is truthy. */
  function ValidateCreatedListing(world: World): (r: Result<Value, StepError>)
    reads world
    ensures r.Success? <==> Truthy(world.createdListingId)
    ensures r.Success? ==> r.value == world.createdListingId
    ensures r.Failure? ==> r.error == NoListingCreated
  {
    if !Truthy(world.createdListingId) then Failure(NoListingCreated) else Success(world.createdListingId)
  }

  /** `validatePageAndUserId(context)`: the page is checked first. */
  function ValidatePageAndUserId(world: World): (r: Result<(), StepError>)
    reads world
    ensures r.Success? <==> world.page != null && Truthy(world.userId)
    ensures world.page == null ==> r == Failure(PageNotInitialized)
    ensures world.page != null && !Truthy(world.userId) ==> r == Failure(UserIdNotFound)
  {
    var _ :- ValidatePage(world);
    ValidateUserId(world)
  }

  /** A user id of 0 is falsy, so it does not count as logged in. */
  lemma ZeroUserIdIsRejected(world: World)
    requires world.userId == Num(0)
    ensures ValidateUserId(world) == Failure(UserIdNotFound)
  {
  }

  /** `getPageUrl(pageName)`: three exact, case-sensitive names. */
  function GetPageUrl(pageName: string): (r: Result<string, StepError>)
    ensures r.Success? <==> pageName in {"LCP", "LoginPage", "Home"}
    ensures pageName == "LCP" ==> r == Success(WebUrls.ListingCreationPage)
    ensures pageName == "LoginPage" ==> r == Success(WebUrls.LoginPage)
    ensures pageName == "Home" ==> r == Success(WebUrls.BaseUrl)
    ensures r.Failure? ==> r.error == PageNotMapped(pageName)
  {
    var urlMap := map[
      "LCP" := WebUrls.ListingCreationPage,
      "LoginPage" := WebUrls.LoginPage,
      "Home" := WebUrls.BaseUrl];
    if pageName in urlMap && urlMap[pageName] != "" then Success(urlMap[pageName])
    else Failure(PageNotMapped(pageName))
  }

  /** Names differing only in case are not mapped. */
  lemma PageNamesAreCaseSensitive()
    ensures GetPageUrl("lcp").Failure? && GetPageUrl("home").Failure? && GetPageUrl("loginpage").Failure?
  {
  }
}
