/**
 * The BFF "create listing" payload: its fields, the required-field record, the
 * default record for the optional fields, and the `createListingRequest` builder.
 */
module ListingRequests {
  import opened Wrappers
  import opened Values

  /** The keys of `CreateListingRequest`. */
  datatype ListingField =
    | Title | DescContent | ProductType | CategoryId
    | StartDate | EndDate
    | Viptype | Price | UnitPrice | Discount | AddDay
    | CityCode | DistrictId | WardId | StreetId | ProjectId | Address | ContactAddress | Latitude | Longtitude
    | ContactMobile | ContactName | ContactPhone | ContactEmail
    | Acreage | WayInWidth | BedroomCount | ToiletCount | FloorCount | FacadeWidth | HouseDirection
    | BalconyDirection | Furniture | Legality
    | DraftId | ProductId
    | FileIds | VideoUrl
    | IsAddOn | IsReceiEmail | IsVerified | BundleBoostConfig | IsPPP
    | PromotionId | PromotionType | TransAccountId | PromotionChecksum
    | Period | AutoRenewConfigUpdateModel | ListingModel

  type ListingPayload = map<ListingField, Value>

  /** The keys of `RequiredListingFields`. */
  predicate IsRequired(k: ListingField) {
    || k.Title? || k.DescContent? || k.ProductType? || k.CategoryId? || k.Price?
    || k.CityCode? || k.DistrictId? || k.WardId? || k.Address?
    || k.ContactMobile? || k.ContactName? || k.ContactEmail? || k.Acreage? || k.FileIds?
  }

  /** `RequiredListingFields` */
  datatype RequiredListingFields = RequiredListingFields(
    title: string, descContent: string, productType: int, categoryId: int, price: int,
    cityCode: string, districtId: int, wardId: int, address: string,
    contactMobile: string, contactName: string, contactEmail: string,
    acreage: int, fileIds: string)
  {
    /** The value of required key `k`. */
    function Field(k: ListingField): Value {
      match k
      case Title => Str(title)
      case DescContent => Str(descContent)
      case ProductType => Num(productType)
      case CategoryId => Num(categoryId)
      case Price => Num(price)
      case CityCode => Str(cityCode)
      case DistrictId => Num(districtId)
      case WardId => Num(wardId)
      case Address => Str(address)
      case ContactMobile => Str(contactMobile)
      case ContactName => Str(contactName)
      case ContactEmail => Str(contactEmail)
      case Acreage => Num(acreage)
      case FileIds => Str(fileIds)
      case _ => Undefined
    }

    /** The record as a payload object: exactly the required keys. */
    function AsPayload(): (r: ListingPayload)
      ensures forall k :: k in r <==> IsRequired(k)
    {
      map k: ListingField | IsRequired(k) :: Field(k)
    }
  }

  /** The listing period: `date.setDate(date.getDate() + days)` keeps the time of day. */
  function AddDays(t: Timestamp, days: int): (r: Timestamp)
    ensures r.day - t.day == days && r.millis == t.millis
  {
    Timestamp(t.day + days, t.millis)
  }

  const AutoRenewDefault := Obj(map["totalCount" := Num(0), "actionType" := Num(1)])

  /** The value `DEFAULT_LISTING_OPTIONAL_FIELDS` gives optional key `k`. */
  function DefaultField(loadTime: Timestamp, k: ListingField): Value {
    match k
    case Viptype => Str("3")
    case StartDate => Date(loadTime)
    case EndDate => Date(AddDays(loadTime, 10))
    case StreetId => Num(0)
    case ProjectId => Num(0)
    case ContactAddress => Str("")
    case ContactPhone => Null
    case DraftId => Num(0)
    case ProductId => Num(0)
    case WayInWidth => Str("")
    case BedroomCount => Num(0)
    case UnitPrice => Num(2)
    case FacadeWidth => Num(0)
    case HouseDirection => Num(0)
    case IsAddOn => Bool(false)
    case IsReceiEmail => Bool(false)
    case Discount => Num(0)
    case AddDay => Num(0)
    case Furniture => Str("")
    case Legality => Str("")
    case ToiletCount => Num(0)
    case FloorCount => Num(0)
    case BalconyDirection => Num(0)
    case PromotionId => Num(0)
    case PromotionType => Num(0)
    case TransAccountId => Num(0)
    case PromotionChecksum => Str("")
    case Latitude => Num(0)
    case Longtitude => Num(0)
    case VideoUrl => Str("")
    case Period => Num(-1)
    case AutoRenewConfigUpdateModel => AutoRenewDefault
    case IsVerified => Bool(false)
    case BundleBoostConfig => Bool(false)
    case IsPPP => Bool(false)
    case ListingModel => Null
    case _ => Undefined
  }

  /**
   * `DEFAULT_LISTING_OPTIONAL_FIELDS`, evaluated once when the module is loaded at
   * `loadTime`: every key that is not required, with the start date at load time and
   * the end date ten days later. Both `new Date()` reads are taken at `loadTime`.
   */
  function DefaultListingOptionalFields(loadTime: Timestamp): (r: ListingPayload)
    ensures forall k :: k in r <==> !IsRequired(k)
    ensures StartDate in r && EndDate in r
    ensures r[StartDate] == Date(loadTime) && r[EndDate] == Date(AddDays(loadTime, 10))
  {
    map k: ListingField | !IsRequired(k) :: DefaultField(loadTime, k)
  }

  /** The parameters of `createListingRequest`; `None` is an omitted optional. */
  datatype CreateListingParams = CreateListingParams(
    title: string, description: string, productType: int, categoryId: int, price: int,
    cityCode: string, districtId: int, wardId: int, address: string,
    contactMobile: string, contactName: string, contactEmail: string,
    acreage: int, fileIds: string,
    viptype: Option<string>,
    streetId: Option<int>, projectId: Option<int>,
    bedroomCount: Option<int>, toiletCount: Option<int>, floorCount: Option<int>,
    facadeWidth: Option<int>, houseDirection: Option<int>, balconyDirection: Option<int>,
    unitPrice: Option<int>)
  {
    /** The required part of the parameters, with `description` as `descContent`. */
    function Required(): RequiredListingFields {
      RequiredListingFields(title, description, productType, categoryId, price, cityCode,
        districtId, wardId, address, contactMobile, contactName, contactEmail, acreage, fileIds)
    }
  }

  /** An optional parameter as a JS value. */
  function OptStr(o: Option<string>): Value { if o.Some? then Str(o.value) else Undefined }
  function OptNum(o: Option<int>): Value { if o.Some? then Num(o.value) else Undefined }

  /** `param || fallback` on an optional number: absent and 0 both give the fallback. */
  function NumOr(o: Option<int>, fallback: int): (r: Value)
    ensures r == if o.None? || o == Some(0) then Num(fallback) else Num(o.value)
  {
    Or(OptNum(o), Num(fallback))
  }

  /** `param || fallback` on an optional string: absent and "" both give the fallback. */
  function StrOr(o: Option<string>, fallback: string): (r: Value)
    ensures r == if o.None? || o == Some("") then Str(fallback) else Str(o.value)
  {
    Or(OptStr(o), Str(fallback))
  }

  /** The value `createListingRequest(params)`, called at time `now`, gives key `k`. */
  function RequestField(params: CreateListingParams, now: Timestamp, k: ListingField): Value {
    match k
    case Title => Str(params.title)
    case DescContent => Str(params.description)
    case ProductType => Num(params.productType)
    case CategoryId => Num(params.categoryId)
    case Price => Num(params.price)
    case CityCode => Str(params.cityCode)
    case DistrictId => Num(params.districtId)
    case WardId => Num(params.wardId)
    case Address => Str(params.address)
    case ContactMobile => Str(params.contactMobile)
    case ContactName => Str(params.contactName)
    case ContactEmail => Str(params.contactEmail)
    case Acreage => Num(params.acreage)
    case FileIds => Str(params.fileIds)
    case Viptype => StrOr(params.viptype, "3")
    case StartDate => Date(now)
    case EndDate => Date(AddDays(now, 10))
    case StreetId => NumOr(params.streetId, 0)
    case ProjectId => NumOr(params.projectId, 0)
    case ContactAddress => Str("")
    case ContactPhone => Null
    case DraftId => Num(0)
    case ProductId => Num(0)
    case WayInWidth => Str("")
    case BedroomCount => NumOr(params.bedroomCount, 0)
    case UnitPrice => NumOr(params.unitPrice, 2)
    case FacadeWidth => NumOr(params.facadeWidth, 0)
    case HouseDirection => NumOr(params.houseDirection, 0)
    case IsAddOn => Bool(false)
    case IsReceiEmail => Bool(false)
    case Discount => Num(0)
    case AddDay => Num(0)
    case Furniture => Str("")
    case Legality => Str("")
    case ToiletCount => NumOr(params.toiletCount, 0)
    case FloorCount => NumOr(params.floorCount, 0)
    case BalconyDirection => NumOr(params.balconyDirection, 0)
    case PromotionId => Num(0)
    case PromotionType => Num(0)
    case TransAccountId => Num(0)
    case PromotionChecksum => Str("")
    case Latitude => Num(0)
    case Longtitude => Num(0)
    case VideoUrl => Str("")
    case Period => Num(-1)
    case AutoRenewConfigUpdateModel => AutoRenewDefault
    case IsVerified => Bool(false)
    case BundleBoostConfig => Bool(false)
    case IsPPP => Bool(false)
    case ListingModel => Null
  }

  /** `createListingRequest(params)`, called at time `now`: every key has a value. */
  function CreateListingRequest(params: CreateListingParams, now: Timestamp): (r: ListingPayload)
    ensures forall k :: k in r
  {
    map k: ListingField | true :: RequestField(params, now, k)
  }

  /** The required parameters are copied unchanged, `description` into `descContent`. */
  lemma CopiesRequiredFields(params: CreateListingParams, now: Timestamp)
    ensures forall k :: IsRequired(k) ==> CreateListingRequest(params, now)[k] == params.Required().AsPayload()[k]
  {
  }

  /** `viptype || "3"` and `unitPrice || 2`. */
  lemma PricingDefaults(params: CreateListingParams, now: Timestamp)
    ensures var r := CreateListingRequest(params, now);
      && r[Viptype] == (if params.viptype.None? || params.viptype == Some("") then Str("3") else Str(params.viptype.value))
      && r[UnitPrice] == (if params.unitPrice.None? || params.unitPrice == Some(0) then Num(2) else Num(params.unitPrice.value))
  {
  }

  /** The numeric optionals that default to 0. */
  predicate IsZeroDefaulted(k: ListingField) {
    || k.StreetId? || k.ProjectId? || k.BedroomCount? || k.ToiletCount?
    || k.FloorCount? || k.FacadeWidth? || k.HouseDirection? || k.BalconyDirection?
  }

  /** The parameter behind a zero-defaulted field. */
  function NumericParam(params: CreateListingParams, k: ListingField): Option<int>
    requires IsZeroDefaulted(k)
  {
    match k
    case StreetId => params.streetId
    case ProjectId => params.projectId
    case BedroomCount => params.bedroomCount
    case ToiletCount => params.toiletCount
    case FloorCount => params.floorCount
    case FacadeWidth => params.facadeWidth
    case HouseDirection => params.houseDirection
    case BalconyDirection => params.balconyDirection
  }

  /** A given number, or 0 when absent. */
  function OrZero(o: Option<int>): Value { Num(o.GetOr(0)) }

  /** The numeric optionals become 0 when absent, and keep a given value otherwise. */
  lemma NumericDefaults(params: CreateListingParams, now: Timestamp, k: ListingField)
    requires IsZeroDefaulted(k)
    ensures CreateListingRequest(params, now)[k] == OrZero(NumericParam(params, k))
  {
    ZeroFallback(NumericParam(params, k));
  }

  /** `x || 0` is `x ?? 0` on numbers: a 0 that is replaced by 0 is unchanged. */
  lemma ZeroFallback(o: Option<int>)
    ensures NumOr(o, 0) == OrZero(o)
  {
  }


  /** The listing runs from `now` to ten days later, at the same time of day. */
  lemma ListingPeriod(params: CreateListingParams, now: Timestamp)
    ensures var r := CreateListingRequest(params, now);
      && r[StartDate] == Date(now)
      && r[EndDate].Date? && r[EndDate].at.day == now.day + 10 && r[EndDate].at.millis == now.millis
  {
  }

  /** Fields the request always sets the same way: the numeric ones. */
  lemma FixedNumbers(params: CreateListingParams, now: Timestamp)
    ensures var r := CreateListingRequest(params, now);
      r[Period] == Num(-1) && r[DraftId] == Num(0) && r[ProductId] == Num(0)
  {
  }

  /** Fields the request always sets the same way: the null ones and the auto-renew settings. */
  lemma FixedObjects(params: CreateListingParams, now: Timestamp)
    ensures var r := CreateListingRequest(params, now);
      && r[ContactPhone] == Null && r[ListingModel] == Null
      && r[AutoRenewConfigUpdateModel] == Obj(map["totalCount" := Num(0), "actionType" := Num(1)])
  {
  }
}
