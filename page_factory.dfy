/**
 * `PageFactory`: a get-or-create memo of page objects over one Playwright page, keyed
 * by a fixed name per page-object kind, with cache invalidation.
 */
module PageFactories {
  import opened Playwright

  /** The page-object classes the factory can build. */
  datatype PageKind = HomeKind | PropertyPostingKind | PostDetailKind | ListingManagementKind | LoginPageKind {
    /** The cache key each accessor uses. */
    function Key(): string {
      match this
      case HomeKind => "home"
      case PropertyPostingKind => "propertyPosting"
      case PostDetailKind => "postDetail"
      case ListingManagementKind => "listingManagement"
      case LoginPageKind => "loginPage"
    }
  }

  /** The accessors use pairwise different keys. */
  lemma KeysDistinct(a: PageKind, b: PageKind)
    ensures a.Key() == b.Key() <==> a == b
  {
  }

  /** A page object (`new HomePage(page)` and so on): its kind and the page it drives. */
  class PageObject {
    const kind: PageKind
    const page: Page

    constructor (kind: PageKind, page: Page)
      ensures this.kind == kind && this.page == page
    {
      this.kind := kind;
      this.page := page;
    }
  }

  class PageFactory {
    var page: Page
    var pageCache: map<string, PageObject>

    /** Every cached object drives the current page and sits under its own kind's key. */
    ghost predicate Valid()
      reads this
    {
      forall key :: key in pageCache ==> pageCache[key].page == page && pageCache[key].kind.Key() == key
    }

    constructor (page: Page)
      ensures this.page == page && pageCache == map[] && Valid()
    {
      this.page := page;
      pageCache := map[];
    }

    /** The body shared by the five accessors: create on the first call, then reuse. */
    method GetOrCreate(kind: PageKind) returns (obj: PageObject)
      requires Valid()
      modifies this
      ensures Valid() && page == old(page)
      ensures obj.kind == kind && obj.page == page
      ensures kind.Key() in old(pageCache) ==> obj == old(pageCache)[kind.Key()] && pageCache == old(pageCache)
      ensures kind.Key() !in old(pageCache) ==> fresh(obj) && pageCache == old(pageCache)[kind.Key() := obj]
    {
      if kind.Key() !in pageCache {
        var created := new PageObject(kind, page);
        pageCache := pageCache[kind.Key() := created];
      }
      obj := pageCache[kind.Key()];
    }

    /** `home()` */
    method Home() returns (obj: PageObject)
      requires Valid()
      modifies this
      ensures Valid() && page == old(page) && obj.kind == HomeKind && obj.page == page
      ensures "home" in old(pageCache) ==> obj == old(pageCache)["home"] && pageCache == old(pageCache)
      ensures "home" !in old(pageCache) ==> fresh(obj) && pageCache == old(pageCache)["home" := obj]
    {
      obj := GetOrCreate(HomeKind);
    }

    /** `propertyPosting()` */
    method PropertyPosting() returns (obj: PageObject)
      requires Valid()
      modifies this
      ensures Valid() && page == old(page) && obj.kind == PropertyPostingKind && obj.page == page
      ensures "propertyPosting" in old(pageCache) ==>
                obj == old(pageCache)["propertyPosting"] && pageCache == old(pageCache)
      ensures "propertyPosting" !in old(pageCache) ==>
                fresh(obj) && pageCache == old(pageCache)["propertyPosting" := obj]
    {
      obj := GetOrCreate(PropertyPostingKind);
    }

    /** `postDetail()` */
    method PostDetail() returns (obj: PageObject)
      requires Valid()
      modifies this
      ensures Valid() && page == old(page) && obj.kind == PostDetailKind && obj.page == page
      ensures "postDetail" in old(pageCache) ==> obj == old(pageCache)["postDetail"] && pageCache == old(pageCache)
      ensures "postDetail" !in old(pageCache) ==> fresh(obj) && pageCache == old(pageCache)["postDetail" := obj]
    {
      obj := GetOrCreate(PostDetailKind);
    }

    /** `listingManagement()` */
    method ListingManagement() returns (obj: PageObject)
      requires Valid()
      modifies this
      ensures Valid() && page == old(page) && obj.kind == ListingManagementKind && obj.page == page
      ensures "listingManagement" in old(pageCache) ==>
                obj == old(pageCache)["listingManagement"] && pageCache == old(pageCache)
      ensures "listingManagement" !in old(pageCache) ==>
                fresh(obj) && pageCache == old(pageCache)["listingManagement" := obj]
    {
      obj := GetOrCreate(ListingManagementKind);
    }

    /** `loginPage()` */
    method LoginPage() returns (obj: PageObject)
      requires Valid()
      modifies this
      ensures Valid() && page == old(page) && obj.kind == LoginPageKind && obj.page == page
      ensures "loginPage" in old(pageCache) ==> obj == old(pageCache)["loginPage"] && pageCache == old(pageCache)
      ensures "loginPage" !in old(pageCache) ==> fresh(obj) && pageCache == old(pageCache)["loginPage" := obj]
    {
      obj := GetOrCreate(LoginPageKind);
    }

    /** `clearCache()` */
    method ClearCache()
      modifies this
      ensures pageCache == map[] && page == old(page) && Valid()
    {
      pageCache := map[];
    }

    /** `updatePage(newPage)`: later page objects drive the new page. */
    method UpdatePage(newPage: Page)
      modifies this
      ensures page == newPage && pageCache == map[] && Valid()
    {
      page := newPage;
      ClearCache();
    }
  }

  /** Two calls of the same accessor return the identical object. */
  method SameAccessorSameObject(factory: PageFactory) returns (first: PageObject, second: PageObject)
    requires factory.Valid()
    modifies factory
    ensures first == second
  {
    first := factory.Home();
    second := factory.Home();
  }

  /** Creating one page object leaves the other accessors' entries as they were. */
  method AccessorsDoNotInterfere(factory: PageFactory) returns (home: PageObject, detail: PageObject)
    requires factory.Valid()
    modifies factory
    ensures "home" in factory.pageCache && "postDetail" in factory.pageCache
    ensures home == factory.pageCache["home"] && detail == factory.pageCache["postDetail"]
    ensures home.kind == HomeKind && detail.kind == PostDetailKind
  {
    home := factory.Home();
    detail := factory.PostDetail();
  }

  /** After `clearCache`, the next accessor call builds a new object. */
  method ClearCacheForcesNewObject(factory: PageFactory) returns (before: PageObject, after: PageObject)
    requires factory.Valid()
    modifies factory
    ensures before != after && fresh(after)
  {
    before := factory.Home();
    factory.ClearCache();
    after := factory.Home();
  }

  /** After `updatePage`, page objects are bound to the new page. */
  method UpdatePageRebinds(factory: PageFactory, newPage: Page) returns (obj: PageObject)
    requires factory.Valid()
    modifies factory
    ensures obj.page == newPage && fresh(obj)
  {
    factory.UpdatePage(newPage);
    obj := factory.Home();
  }
}
