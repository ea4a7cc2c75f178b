/**
 * `PayloadFactory`: request payloads built by spreading default records under the
 * caller's fields (UMS login, BFF listing, and the three AME orchestrator requests).
 */
module PayloadFactory {
  import opened Wrappers
  import opened Values
  import opened LoginRequests
  import L = ListingRequests
  import H = CommonHeaders

  /** `DEFAULT_LOGIN_REMEMBER_ME` */
  const DefaultLoginRememberMe: nat := 0

  /** `createLogin(username, password, rememberMe = false)` */
  function CreateLogin(username: string, password: string, rememberMe: Option<bool>): (r: LoginRequest)
    ensures r.input == username && r.password == password
    ensures r.isRemember == 1 <==> rememberMe == Some(true)
    ensures rememberMe != Some(true) ==> r.isRemember == DefaultLoginRememberMe
  {
    LoginRequest(username, password, if rememberMe.GetOr(false) then 1 else DefaultLoginRememberMe)
  }

  /** The factory and `createLoginRequest` build the same login payload. */
  lemma CreateLoginIsCreateLoginRequest(username: string, password: string, rememberMe: Option<bool>)
    ensures CreateLogin(username, password, rememberMe) == CreateLoginRequest(username, password, rememberMe)
  {
  }

  // ---------------------------------------------------------------------------
  // BFF listing

  /**
   * `createListing(requiredFields, optionalFields)`: the optional-field defaults (loaded
   * at `loadTime`), then the required fields, then the caller's optional fields.
   */
  function CreateListing(required: L.RequiredListingFields, optionalFields: Option<L.ListingPayload>,
                         loadTime: Timestamp): (r: L.ListingPayload)
    ensures forall k :: k in r
    ensures optionalFields.Some? ==> forall k :: k in optionalFields.value ==> r[k] == optionalFields.value[k]
  {
    L.DefaultListingOptionalFields(loadTime) + required.AsPayload() + optionalFields.GetOr(map[])
  }

  /**
   * Every key is present; a caller's optional field wins, otherwise a required key keeps
   * the required value and any other key keeps its default.
   */
  lemma CreateListingLayers(required: L.RequiredListingFields, optionalFields: Option<L.ListingPayload>,
                            loadTime: Timestamp, k: L.ListingField)
    ensures var r := CreateListing(required, optionalFields, loadTime);
      && k in r
      && (optionalFields.Some? && k in optionalFields.value ==> r[k] == optionalFields.value[k])
      && (optionalFields.None? || k !in optionalFields.value ==>
            r[k] == if L.IsRequired(k) then required.Field(k) else L.DefaultField(loadTime, k))
  {
  }

  /** The `||`-defaulted fields of `createListingRequest`, as an optional layer. */
  function DefaultedOptionals(params: L.CreateListingParams): L.ListingPayload {
    map[
      L.Viptype := L.StrOr(params.viptype, "3"),
      L.StreetId := L.NumOr(params.streetId, 0),
      L.ProjectId := L.NumOr(params.projectId, 0),
      L.BedroomCount := L.NumOr(params.bedroomCount, 0),
      L.UnitPrice := L.NumOr(params.unitPrice, 2),
      L.FacadeWidth := L.NumOr(params.facadeWidth, 0),
      L.HouseDirection := L.NumOr(params.houseDirection, 0),
      L.ToiletCount := L.NumOr(params.toiletCount, 0),
      L.FloorCount := L.NumOr(params.floorCount, 0),
      L.BalconyDirection := L.NumOr(params.balconyDirection, 0)]
  }

  /**
   * `createListingRequest(params)` at time `now` is the factory's listing built from the
   * same required fields and the `||`-defaulted optionals, with defaults loaded at `now`:
   * its fixed fields are exactly the default record's.
   */
  lemma CreateListingRequestIsFactoryListing(params: L.CreateListingParams, now: Timestamp)
    ensures L.CreateListingRequest(params, now) == CreateListing(params.Required(), Some(DefaultedOptionals(params)), now)
  {
    var a := L.CreateListingRequest(params, now);
    var b := CreateListing(params.Required(), Some(DefaultedOptionals(params)), now);
    forall k: L.ListingField
      ensures k in b && a[k] == b[k]
    {
      SameField(params, now, k);
    }
  }

  /** All optional parameters of `createListingRequest` left out. */
  predicate NoOptionals(params: L.CreateListingParams) {
    && params.viptype.None? && params.streetId.None? && params.projectId.None?
    && params.bedroomCount.None? && params.toiletCount.None? && params.floorCount.None?
    && params.facadeWidth.None? && params.houseDirection.None? && params.balconyDirection.None?
    && params.unitPrice.None?
  }

  /**
   * Without optional parameters, `createListingRequest` is `createListing` with no
   * optional fields: its `||` fallbacks are the default record's values.
   */
  lemma NoOptionalsGiveDefaults(params: L.CreateListingParams, now: Timestamp)
    requires NoOptionals(params)
    ensures L.CreateListingRequest(params, now) == CreateListing(params.Required(), None, now)
  {
    CreateListingRequestIsFactoryListing(params, now);
    var opt := DefaultedOptionals(params);
    var a := CreateListing(params.Required(), Some(opt), now);
    var b := CreateListing(params.Required(), None, now);
    forall k: L.ListingField
      ensures k in b && a[k] == b[k]
    {
      CreateListingLayers(params.Required(), Some(opt), now, k);
      CreateListingLayers(params.Required(), None, now, k);
      if k in opt {
        FallbackIsDefault(params, now, k);
      }
    }
  }

  lemma FallbackIsDefault(params: L.CreateListingParams, now: Timestamp, k: L.ListingField)
    requires NoOptionals(params) && k in DefaultedOptionals(params)
    ensures !L.IsRequired(k) && DefaultedOptionals(params)[k] == L.DefaultField(now, k)
  {
    match k
    case Viptype =>
    case StreetId =>
    case ProjectId =>
    case BedroomCount =>
    case UnitPrice =>
    case FacadeWidth =>
    case HouseDirection =>
    case ToiletCount =>
    case FloorCount =>
    case BalconyDirection =>
    case Title | DescContent | ProductType | CategoryId | StartDate | EndDate | Price | Discount | AddDay | CityCode | DistrictId | WardId | Address | ContactAddress | Latitude | Longtitude | ContactMobile | ContactName | ContactPhone | ContactEmail | Acreage | WayInWidth | Furniture | Legality | DraftId | ProductId | FileIds | VideoUrl | IsAddOn | IsReceiEmail | IsVerified | BundleBoostConfig | IsPPP | PromotionId | PromotionType | TransAccountId | PromotionChecksum | Period | AutoRenewConfigUpdateModel | ListingModel =>
  }

  lemma SameField(params: L.CreateListingParams, now: Timestamp, k: L.ListingField)
    ensures var b := CreateListing(params.Required(), Some(DefaultedOptionals(params)), now);
      k in b && L.CreateListingRequest(params, now)[k] == b[k]
  {
    var opt := DefaultedOptionals(params);
    var b := CreateListing(params.Required(), Some(opt), now);
    CreateListingLayers(params.Required(), Some(opt), now, k);
    if k in opt {
      SameDefaultedField(params, now, k);
      assert b[k] == opt[k];
    } else if L.IsRequired(k) {
      SameRequiredField(params, now, k);
      assert b[k] == params.Required().Field(k);
    } else {
      SameFixedField(params, now, k);
      assert b[k] == L.DefaultField(now, k);
    }
  }

  lemma SameRequiredField(params: L.CreateListingParams, now: Timestamp, k: L.ListingField)
    requires L.IsRequired(k)
    ensures L.CreateListingRequest(params, now)[k] == params.Required().Field(k)
  {
    match k
    case Title =>
    case DescContent =>
    case ProductType =>
    case CategoryId =>
    case Price =>
    case CityCode =>
    case DistrictId =>
    case WardId =>
    case Address =>
    case ContactMobile =>
    case ContactName =>
    case ContactEmail =>
    case Acreage =>
    case FileIds =>
    case StartDate | EndDate | Viptype | UnitPrice | Discount | AddDay | StreetId | ProjectId | ContactAddress | Latitude | Longtitude | ContactPhone | WayInWidth | BedroomCount | ToiletCount | FloorCount | FacadeWidth | HouseDirection | BalconyDirection | Furniture | Legality | DraftId | ProductId | VideoUrl | IsAddOn | IsReceiEmail | IsVerified | BundleBoostConfig | IsPPP | PromotionId | PromotionType | TransAccountId | PromotionChecksum | Period | AutoRenewConfigUpdateModel | ListingModel =>
  }

  lemma SameDefaultedField(params: L.CreateListingParams, now: Timestamp, k: L.ListingField)
    requires k in DefaultedOptionals(params)
    ensures L.CreateListingRequest(params, now)[k] == DefaultedOptionals(params)[k]
  {
    if k == L.Viptype || k == L.UnitPrice {
      L.PricingDefaults(params, now);
    } else {
      SameZeroDefaultedField(params, now, k);
    }
  }

  lemma SameZeroDefaultedField(params: L.CreateListingParams, now: Timestamp, k: L.ListingField)
    requires k in DefaultedOptionals(params) && k != L.Viptype && k != L.UnitPrice
    ensures L.IsZeroDefaulted(k)
    ensures L.CreateListingRequest(params, now)[k] == DefaultedOptionals(params)[k]
  {
    assert L.IsZeroDefaulted(k) && DefaultedOptionals(params)[k] == L.NumOr(L.NumericParam(params, k), 0) by {
      match k
      case StreetId =>
      case ProjectId =>
      case BedroomCount =>
      case FacadeWidth =>
      case HouseDirection =>
      case ToiletCount =>
      case FloorCount =>
      case BalconyDirection =>
    }
    L.NumericDefaults(params, now, k);
    L.ZeroFallback(L.NumericParam(params, k));
  }


  lemma SameFixedField(params: L.CreateListingParams, now: Timestamp, k: L.ListingField)
    requires !L.IsRequired(k) && k !in DefaultedOptionals(params)
    ensures L.CreateListingRequest(params, now)[k] == L.DefaultField(now, k)
  {
    match k
    case StartDate =>
    case EndDate =>
    case Discount =>
    case AddDay =>
    case ContactAddress =>
    case Latitude =>
    case Longtitude =>
    case ContactPhone =>
    case WayInWidth =>
    case Furniture =>
    case Legality =>
    case DraftId =>
    case ProductId =>
    case VideoUrl =>
    case IsAddOn =>
    case IsReceiEmail =>
    case IsVerified =>
    case BundleBoostConfig =>
    case IsPPP =>
    case PromotionId =>
    case PromotionType =>
    case TransAccountId =>
    case PromotionChecksum =>
    case Period =>
    case AutoRenewConfigUpdateModel =>
    case ListingModel =>
    case Title | DescContent | ProductType | CategoryId | Viptype | Price | UnitPrice | CityCode | DistrictId | WardId | StreetId | ProjectId | Address | ContactMobile | ContactName | ContactEmail | Acreage | BedroomCount | ToiletCount | FloorCount | FacadeWidth | HouseDirection | BalconyDirection | FileIds =>
  }

  // ---------------------------------------------------------------------------
  // AME orchestrator requests

  /** The keys of the AME publish, suspend and mark-review requests. */
  datatype AmeField = ProductId | ActorId | OwnerId | CorrelationId | Note | Explanations

  type AmePayload = map<AmeField, Value>

  /** The notes the three AME defaults carry. */
  const PublishNote := "[Automation] Published listing by Automation Tester"
  const SuspendNote := "[Automation] Suspend listing"
  const MarkReviewNote := "[Automation] Mark review listing"

  /** `DEFAULT_PUBLISH_REQUEST`, whose correlation id was generated from `draws` at load time. */
  function DefaultPublishRequest(draws: seq<nat>): (r: AmePayload)
    requires |draws| == 31 && H.ValidDraws(draws)
    ensures r.Keys == {ProductId, ActorId, OwnerId, CorrelationId, Note}
    ensures r[ProductId] == Num(0) && r[ActorId] == Num(0) && r[OwnerId] == Num(0)
    ensures r[CorrelationId].Str? && |r[CorrelationId].s| == 36
    ensures r[CorrelationId] == Str(H.GenerateRequestId(draws))
    ensures r[Note] == Str(PublishNote)
  {
    map[
      ProductId := Num(0), ActorId := Num(0), OwnerId := Num(0),
      CorrelationId := Str(H.GenerateRequestId(draws)),
      Note := Str(PublishNote)]
  }

  const SuspendExplanation := Obj(map[
    "description" := Str("[Automation] Set up listing state"),
    "reason" := Str("Category"),
    "reasonCode" := Str("0"),
    "title" := Str("[Automation] Set up listing state")])

  /** `DEFAULT_SUSPEND_REQUEST` */
  function DefaultSuspendRequest(draws: seq<nat>): (r: AmePayload)
    requires |draws| == 31 && H.ValidDraws(draws)
    ensures r.Keys == {ProductId, ActorId, OwnerId, CorrelationId, Note, Explanations}
    ensures r[ProductId] == Num(0) && r[ActorId] == Num(0) && r[OwnerId] == Num(0)
    ensures r[CorrelationId].Str? && |r[CorrelationId].s| == 36
    ensures r[CorrelationId] == Str(H.GenerateRequestId(draws))
    ensures r[Note] == Str(SuspendNote)
    ensures r[Explanations] == List([SuspendExplanation])
  {
    map[
      ProductId := Num(0), ActorId := Num(0), OwnerId := Num(0),
      CorrelationId := Str(H.GenerateRequestId(draws)),
      Note := Str(SuspendNote),
      Explanations := List([SuspendExplanation])]
  }

  /** `DEFAULT_MARK_REVIEW_REQUEST` */
  function DefaultMarkReviewRequest(draws: seq<nat>): (r: AmePayload)
    requires |draws| == 31 && H.ValidDraws(draws)
    ensures r.Keys == {ProductId, ActorId, OwnerId, CorrelationId, Note}
    ensures r[ProductId] == Num(0) && r[ActorId] == Num(0) && r[OwnerId] == Num(0)
    ensures r[CorrelationId].Str? && |r[CorrelationId].s| == 36
    ensures r[CorrelationId] == Str(H.GenerateRequestId(draws))
    ensures r[Note] == Str(MarkReviewNote)
  {
    map[
      ProductId := Num(0), ActorId := Num(0), OwnerId := Num(0),
      CorrelationId := Str(H.GenerateRequestId(draws)),
      Note := Str(MarkReviewNote)]
  }

  /** `createPublishListing(params)` */
  function CreatePublishListing(params: AmePayload, draws: seq<nat>): (r: AmePayload)
    requires |draws| == 31 && H.ValidDraws(draws)
    ensures forall k :: k in r <==> k in params || k in DefaultPublishRequest(draws)
    ensures forall k :: k in params ==> r[k] == params[k]
    ensures forall k :: k !in params && k in DefaultPublishRequest(draws) ==> r[k] == DefaultPublishRequest(draws)[k]
  {
    DefaultPublishRequest(draws) + params
  }

  /** `createSuspendListing(params)` */
  function CreateSuspendListing(params: AmePayload, draws: seq<nat>): (r: AmePayload)
    requires |draws| == 31 && H.ValidDraws(draws)
    ensures forall k :: k in r <==> k in params || k in DefaultSuspendRequest(draws)
    ensures forall k :: k in params ==> r[k] == params[k]
    ensures forall k :: k !in params && k in DefaultSuspendRequest(draws) ==> r[k] == DefaultSuspendRequest(draws)[k]
  {
    DefaultSuspendRequest(draws) + params
  }

  /** `createMarkReviewListing(params)` */
  function CreateMarkReviewListing(params: AmePayload, draws: seq<nat>): (r: AmePayload)
    requires |draws| == 31 && H.ValidDraws(draws)
    ensures forall k :: k in r <==> k in params || k in DefaultMarkReviewRequest(draws)
    ensures forall k :: k in params ==> r[k] == params[k]
    ensures forall k :: k !in params && k in DefaultMarkReviewRequest(draws) ==> r[k] == DefaultMarkReviewRequest(draws)[k]
  {
    DefaultMarkReviewRequest(draws) + params
  }

  /** With no parameters each AME builder returns exactly its default record. */
  lemma EmptyParamsGiveDefaults(draws: seq<nat>)
    requires |draws| == 31 && H.ValidDraws(draws)
    ensures CreatePublishListing(map[], draws) == DefaultPublishRequest(draws)
    ensures CreateSuspendListing(map[], draws) == DefaultSuspendRequest(draws)
    ensures CreateMarkReviewListing(map[], draws) == DefaultMarkReviewRequest(draws)
  {
  }

  /** A single supplied field overrides that field of the default record and nothing else. */
  lemma OneFieldOverridesOnlyItself(k: AmeField, v: Value, draws: seq<nat>)
    requires |draws| == 31 && H.ValidDraws(draws)
    ensures CreatePublishListing(map[k := v], draws) == DefaultPublishRequest(draws)[k := v]
    ensures CreateSuspendListing(map[k := v], draws) == DefaultSuspendRequest(draws)[k := v]
    ensures CreateMarkReviewListing(map[k := v], draws) == DefaultMarkReviewRequest(draws)[k := v]
  {
    UnionSingleton(DefaultPublishRequest(draws), k, v);
    UnionSingleton(DefaultSuspendRequest(draws), k, v);
    UnionSingleton(DefaultMarkReviewRequest(draws), k, v);
  }

  lemma UnionSingleton<K, V>(m: map<K, V>, k: K, v: V)
    ensures m + map[k := v] == m[k := v]
  {
  }

  /** Keys the caller leaves out keep their default values; the caller's keys win. */
  lemma AmeParamsOverride(params: AmePayload, draws: seq<nat>, k: AmeField)
    requires |draws| == 31 && H.ValidDraws(draws)
    ensures k in params ==> CreatePublishListing(params, draws)[k] == params[k]
    ensures k !in params && k in DefaultPublishRequest(draws) ==>
              CreatePublishListing(params, draws)[k] == DefaultPublishRequest(draws)[k]
    ensures k !in params && k in DefaultSuspendRequest(draws) ==>
              CreateSuspendListing(params, draws)[k] == DefaultSuspendRequest(draws)[k]
    ensures k !in params && k in DefaultMarkReviewRequest(draws) ==>
              CreateMarkReviewListing(params, draws)[k] == DefaultMarkReviewRequest(draws)[k]
  {
  }

  /** The default correlation ids are UUID-v4 shaped (version digit '4'). */
  lemma DefaultCorrelationIdShape(draws: seq<nat>)
    requires |draws| == 31 && H.ValidDraws(draws)
    ensures var id := DefaultPublishRequest(draws)[CorrelationId];
      id.Str? && |id.s| == 36 && id.s[14] == '4'
  {
  }
}
