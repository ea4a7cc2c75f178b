/**
 * Property-type, category and VIP codes of the listing platform, and the three lookups
 * that turn a friendly (English or Vietnamese) name into a code. Every lookup lowercases
 * and trims its input first and throws for a name its table does not hold.
 */
module ListingConstants {
  import opened Wrappers
  import opened Text

  // PropertyType
  const SELL := 38
  const RENT := 49

  // SellCategoryCode
  const BAN_NHA_RIENG := 41
  const BAN_CAN_HO := 324
  const BAN_BIET_THU := 325
  const BAN_SHOP_HOUSE := 575
  const BAN_DAT := 283
  const BAN_DAT_DU_AN := 40
  const BAN_TRANG_TRAI := 44
  const BAN_CONDOTEL := 562
  const BAN_WAREHOUSE := 45
  const BAN_LOAI_KHAC := 48
  const BAN_NHA_MAT_PHO := 163

  // RentCategoryCode
  const THUE_NHA_RIENG := 52
  const THUE_CAN_HO := 326
  const THUE_BIET_THU := 577
  const THUE_SHOPHOUSE := 576
  const THUE_PHONG_TRO := 57
  const THUE_KHO := 53
  const THUE_NHA_MAT_PHO := 51
  const THUE_VAN_PHONG := 50
  const THUE_KIOS := 55
  const THUE_LOAI_KHAC := 59

  // VipTypeCode
  const TIN_THUONG := 5
  const VIP_BAC := 3
  const VIP_VANG := 1
  const VIP_KIM_CUONG := 0

  const PropertyTypeMapping: map<string, int> := map[
    "sell" := SELL, "bán" := SELL, "ban" := SELL,
    "rent" := RENT, "thuê" := RENT, "thue" := RENT]

  const SellCategoryMapping: map<string, int> := map[
    "apartment" := BAN_CAN_HO, "căn hộ" := BAN_CAN_HO, "can ho" := BAN_CAN_HO,
    "house" := BAN_NHA_RIENG, "nhà riêng" := BAN_NHA_RIENG, "nha rieng" := BAN_NHA_RIENG,
    "villa" := BAN_BIET_THU, "biệt thự" := BAN_BIET_THU, "biet thu" := BAN_BIET_THU,
    "shophouse" := BAN_SHOP_HOUSE, "shop house" := BAN_SHOP_HOUSE,
    "land" := BAN_DAT, "đất" := BAN_DAT, "dat" := BAN_DAT,
    "project land" := BAN_DAT_DU_AN, "đất dự án" := BAN_DAT_DU_AN, "dat du an" := BAN_DAT_DU_AN,
    "farm" := BAN_TRANG_TRAI, "trang trại" := BAN_TRANG_TRAI, "trang trai" := BAN_TRANG_TRAI,
    "condotel" := BAN_CONDOTEL,
    "warehouse" := BAN_WAREHOUSE, "kho" := BAN_WAREHOUSE,
    "townhouse" := BAN_NHA_MAT_PHO, "nhà mặt phố" := BAN_NHA_MAT_PHO, "nha mat pho" := BAN_NHA_MAT_PHO,
    "other" := BAN_LOAI_KHAC, "khác" := BAN_LOAI_KHAC, "khac" := BAN_LOAI_KHAC]

  const RentCategoryMapping: map<string, int> := map[
    "apartment" := THUE_CAN_HO, "căn hộ" := THUE_CAN_HO, "can ho" := THUE_CAN_HO,
    "house" := THUE_NHA_RIENG, "nhà riêng" := THUE_NHA_RIENG, "nha rieng" := THUE_NHA_RIENG,
    "villa" := THUE_BIET_THU, "biệt thự" := THUE_BIET_THU, "biet thu" := THUE_BIET_THU,
    "shophouse" := THUE_SHOPHOUSE, "shop house" := THUE_SHOPHOUSE,
    "room" := THUE_PHONG_TRO, "phòng trọ" := THUE_PHONG_TRO, "phong tro" := THUE_PHONG_TRO,
    "warehouse" := THUE_KHO, "kho" := THUE_KHO,
    "townhouse" := THUE_NHA_MAT_PHO, "nhà mặt phố" := THUE_NHA_MAT_PHO, "nha mat pho" := THUE_NHA_MAT_PHO,
    "office" := THUE_VAN_PHONG, "văn phòng" := THUE_VAN_PHONG, "van phong" := THUE_VAN_PHONG,
    "kiosk" := THUE_KIOS, "kios" := THUE_KIOS,
    "other" := THUE_LOAI_KHAC, "khác" := THUE_LOAI_KHAC, "khac" := THUE_LOAI_KHAC]

  const VipTypeMapping: map<string, int> := map[
    "normal" := TIN_THUONG, "tin thường" := TIN_THUONG, "tin thuong" := TIN_THUONG,
    "regular" := TIN_THUONG,
    "vip silver" := VIP_BAC, "vip bạc" := VIP_BAC, "vip bac" := VIP_BAC,
    "silver" := VIP_BAC, "bạc" := VIP_BAC, "bac" := VIP_BAC,
    "vip gold" := VIP_VANG, "vip vàng" := VIP_VANG, "vip vang" := VIP_VANG,
    "gold" := VIP_VANG, "vàng" := VIP_VANG, "vang" := VIP_VANG,
    "vip diamond" := VIP_KIM_CUONG, "vip kim cương" := VIP_KIM_CUONG,
    "vip kim cuong" := VIP_KIM_CUONG, "diamond" := VIP_KIM_CUONG,
    "kim cương" := VIP_KIM_CUONG, "kim cuong" := VIP_KIM_CUONG]

  /** The thrown errors; each carries the name as the caller wrote it. */
  datatype LookupError =
    | UnknownPropertyType(name: string)
    | UnknownSellCategory(name: string)
    | UnknownRentCategory(name: string)
    | UnknownVipType(name: string)

  /** `getPropertyType(name)` */
  function GetPropertyType(name: string): (r: Result<int, LookupError>)
    ensures r == Success(SELL) <==> Normalize(name) in {"sell", "bán", "ban"}
    ensures r == Success(RENT) <==> Normalize(name) in {"rent", "thuê", "thue"}
    ensures r.Success? || r == Failure(UnknownPropertyType(name))
  {
    var key := Normalize(name);
    if key in PropertyTypeMapping then Success(PropertyTypeMapping[key])
    else Failure(UnknownPropertyType(name))
  }

  /** `getCategoryCode(propertyTypeName, categoryName)` */
  function GetCategoryCode(propertyTypeName: string, categoryName: string): (r: Result<int, LookupError>)
    // an unknown property type throws before any category table is consulted
    ensures GetPropertyType(propertyTypeName).Failure? ==>
              r == Failure(UnknownPropertyType(propertyTypeName))
    // the sell table exactly for SELL, the rent table for every other property type
    ensures GetPropertyType(propertyTypeName) == Success(SELL) ==>
              if Normalize(categoryName) in SellCategoryMapping
              then r == Success(SellCategoryMapping[Normalize(categoryName)])
              else r == Failure(UnknownSellCategory(categoryName))
    ensures GetPropertyType(propertyTypeName) == Success(RENT) ==>
              if Normalize(categoryName) in RentCategoryMapping
              then r == Success(RentCategoryMapping[Normalize(categoryName)])
              else r == Failure(UnknownRentCategory(categoryName))
  {
    var normalizedCategoryName := Normalize(categoryName);
    var propertyType :- GetPropertyType(propertyTypeName);
    if propertyType == SELL then
      if normalizedCategoryName in SellCategoryMapping
      then Success(SellCategoryMapping[normalizedCategoryName])
      else Failure(UnknownSellCategory(categoryName))
    else
      if normalizedCategoryName in RentCategoryMapping
      then Success(RentCategoryMapping[normalizedCategoryName])
      else Failure(UnknownRentCategory(categoryName))
  }

  /** `getVipType(name)` */
  function GetVipType(name: string): (r: Result<int, LookupError>)
    ensures r.Success? ==> r.value in {TIN_THUONG, VIP_BAC, VIP_VANG, VIP_KIM_CUONG}
    ensures r.Success? <==> Normalize(name) in VipTypeMapping
    ensures r.Failure? ==> r.error == UnknownVipType(name)
  {
    var key := Normalize(name);
    if key in VipTypeMapping then Success(VipTypeMapping[key])
    else Failure(UnknownVipType(name))
  }

  // ---------------------------------------------------------------------------
  // Properties of the lookups

  /** Case and surrounding whitespace do not matter to a property-type lookup. */
  lemma PropertyTypeIgnoresCaseAndPadding(pre: string, a: string, post: string, b: string)
    requires AllSpace(pre) && AllSpace(post) && Lower(a) == Lower(b)
    ensures GetPropertyType(pre + a + post).Success? == GetPropertyType(b).Success?
    ensures GetPropertyType(pre + a + post).Success? ==>
              GetPropertyType(pre + a + post).value == GetPropertyType(b).value
  {
    NormalizeIgnoresCaseAndPadding(pre, a, post, b);
  }

  /** The property-type lookup yields only SELL or RENT. */
  lemma PropertyTypeCodes(name: string)
    ensures GetPropertyType(name).Success? ==> GetPropertyType(name).value in {SELL, RENT}
  {
  }

  /** The same category name can map to different codes depending on the table. */
  lemma ApartmentCodeDependsOnPropertyType()
    ensures GetCategoryCode("sell", "apartment") == Success(BAN_CAN_HO)
    ensures GetCategoryCode("rent", "apartment") == Success(THUE_CAN_HO)
    ensures BAN_CAN_HO != THUE_CAN_HO
  {
    NormalFormFixed("sell");
    NormalFormFixed("rent");
    NormalFormFixed("apartment");
  }

  /** 'land' is a sell-only name: the rent table rejects it. */
  lemma LandIsSellOnly()
    ensures GetCategoryCode("sell", "land") == Success(BAN_DAT)
    ensures GetCategoryCode("rent", "land") == Failure(UnknownRentCategory("land"))
  {
    NormalFormFixed("rent");
    NormalFormFixed("sell");
    NormalFormFixed("land");
  }

  /** 'condotel' is a sell-only name: the rent table rejects it. */
  lemma CondotelIsSellOnly()
    ensures GetCategoryCode("sell", "condotel") == Success(BAN_CONDOTEL)
    ensures GetCategoryCode("rent", "condotel") == Failure(UnknownRentCategory("condotel"))
  {
    NormalFormFixed("rent");
    NormalFormFixed("sell");
    NormalFormFixed("condotel");
  }

  /** 'office' is a rent-only name: the sell table rejects it. */
  lemma OfficeIsRentOnly()
    ensures GetCategoryCode("rent", "office") == Success(THUE_VAN_PHONG)
    ensures GetCategoryCode("sell", "office") == Failure(UnknownSellCategory("office"))
  {
    NormalFormFixed("rent");
    NormalFormFixed("sell");
    NormalFormFixed("office");
  }

  /** 'room' is a rent-only name: the sell table rejects it. */
  lemma RoomIsRentOnly()
    ensures GetCategoryCode("rent", "room") == Success(THUE_PHONG_TRO)
    ensures GetCategoryCode("sell", "room") == Failure(UnknownSellCategory("room"))
  {
    NormalFormFixed("rent");
    NormalFormFixed("sell");
    NormalFormFixed("room");
  }

  /** The English names of the lowest and a middle VIP tier. */
  lemma VipTierEnglishNames()
    ensures GetVipType("normal") == Success(TIN_THUONG)
    ensures GetVipType("gold") == Success(VIP_VANG)
  {
    NormalFormFixed("normal");
    NormalFormFixed("gold");
  }

  /** Vietnamese names, with diacritics, of the silver and diamond VIP tiers. */
  lemma VipTierVietnameseNames()
    ensures GetVipType("bạc") == Success(VIP_BAC)
    ensures GetVipType("kim cương") == Success(VIP_KIM_CUONG)
  {
    NormalFormFixed("bạc");
    NormalFormFixed("kim cương");
  }
}
