/**
 * Shared HTTP header groups, their merge, the three API presets, and the UUID-v4
 * shaped request id generator.
 */
module CommonHeaders {
  import opened Values

  type Headers = map<string, string>

  /** Headers sent with every API request. */
  const Base: Headers := map[
    "Accept" := "application/json, text/plain, */*",
    "Cache-Control" := "no-cache",
    "sec-ch-ua" := "\" Not A;Brand\";v=\"99\", \"Chromium\";v=\"99\", \"Google Chrome\";v=\"99\"",
    "sec-ch-ua-mobile" := "?0",
    "sec-ch-ua-platform" := "\"Windows\"",
    "User-Agent" := "Mozilla/5.0 (Windows NT 10.0; Win64; x64) AppleWebKit/537.36 (KHTML, like Gecko) Chrome/99.0.4844.82 Safari/537.36"]

  /** PropertyGuru API headers. */
  const PropertyGuru: Headers := map[
    "APIVersion" := "2020-02-28 18:30",
    "UniqueId" := "deviceidfromweb",
    "Sellernet-Origin" := "desktop",
    "Auth" := "1"]

  /** CORS headers. */
  const Cors: Headers := map[
    "Access-Control-Allow-Credentials" := "true",
    "Access-Control-Allow-Headers" := "Access-Control-Allow-Headers, Origin,Accept, X-Requested-With, Content-Type, Access-Control-Request-Method, Access-Control-Request-Headers",
    "Access-Control-Allow-Methods" := "GET,HEAD,OPTIONS,POST,PUT",
    "Access-Control-Allow-Origin" := "*"]

  /** Fetch-metadata headers. */
  const Security: Headers := map[
    "sec-fetch-site" := "same-site",
    "sec-fetch-mode" := "cors",
    "sec-fetch-dest" := "empty"]

  /** `mergeHeaders(...headerGroups)`: `Object.assign({}, ...headerGroups)`. */
  function MergeHeaders(groups: seq<Headers>): (r: Headers)
    ensures forall k :: k in r <==> exists i :: 0 <= i < |groups| && k in groups[i]
  {
    Assign(groups)
  }

  /** Every key of every group survives the merge. */
  lemma MergeHeadersKeeps(groups: seq<Headers>, i: nat)
    requires i < |groups|
    ensures groups[i].Keys <= MergeHeaders(groups).Keys
  {
  }

  /** The merge has exactly the keys of all groups, and each key takes its last group's value. */
  lemma MergeHeadersLastWins(groups: seq<Headers>, i: nat, k: string)
    requires i < |groups| && k in groups[i]
    requires forall j :: i < j < |groups| ==> k !in groups[j]
    ensures k in MergeHeaders(groups) && MergeHeaders(groups)[k] == groups[i][k]
  {
    AssignPicksLatest(groups, i, k);
  }

  /** Merging is associative: merging merged groups is merging all of them. */
  lemma MergeHeadersNested(a: seq<Headers>, b: seq<Headers>)
    ensures MergeHeaders([MergeHeaders(a), MergeHeaders(b)]) == MergeHeaders(a + b)
  {
    AssignPair(Assign(a), Assign(b));
    AssignConcat(a, b);
  }

  // ---------------------------------------------------------------------------
  // Request ids

  /** `n` random-digit places. */
  function Xs(n: nat): (r: string)
    ensures |r| == n && forall i :: 0 <= i < n ==> r[i] == 'x'
  {
    seq(n, _ => 'x')
  }

  /** The UUID-v4 pattern that `generateRequestId` fills in: "xxxxxxxx-xxxx-4xxx-yxxx-xxxxxxxxxxxx". */
  const RequestIdTemplate := Xs(8) + "-" + Xs(4) + "-4" + Xs(3) + "-y" + Xs(3) + "-" + Xs(12)

  predicate IsLowerHex(c: char) { '0' <= c <= '9' || 'a' <= c <= 'f' }

  /** `v.toString(16)` for a single hex digit. */
  function HexDigit(v: nat): (c: char)
    requires v < 16
    ensures IsLowerHex(c)
  {
    "0123456789abcdef"[v]
  }

  /** A random draw: `Math.random() * 16 | 0`, a number in 0..15. */
  predicate ValidDraws(draws: seq<nat>) { forall i :: 0 <= i < |draws| ==> draws[i] < 16 }

  /** How many `x`/`y` places the pattern has, i.e. how many draws it consumes. */
  function Placeholders(t: string): nat {
    if t == [] then 0 else (if t[0] == 'x' || t[0] == 'y' then 1 else 0) + Placeholders(t[1..])
  }

  /** The digit the callback returns for placeholder `c` and draw `r`. */
  function PlaceholderDigit(c: char, r: nat): char
    requires r < 16
  {
    if c == 'x' then HexDigit(r) else HexDigit(((r as bv8 & 0x3) | 0x8) as nat)
  }

  /**
   * `t.replace(/[xy]/g, ...)`: each `x` or `y`, left to right, is replaced by a digit
   * computed from the next draw; every other character is kept.
   */
  function Fill(t: string, draws: seq<nat>): string
    requires |draws| == Placeholders(t) && ValidDraws(draws)
  {
    if t == [] then []
    else if t[0] == 'x' || t[0] == 'y' then [PlaceholderDigit(t[0], draws[0])] + Fill(t[1..], draws[1..])
    else [t[0]] + Fill(t[1..], draws)
  }

  /** What character may stand in the filled id where the pattern has `t`. */
  predicate Conforms(t: char, c: char) {
    if t == 'x' then IsLowerHex(c)
    else if t == 'y' then c in {'8', '9', 'a', 'b'}
    else c == t
  }

  lemma VariantDigit(r: nat)
    requires r < 16
    ensures PlaceholderDigit('y', r) in {'8', '9', 'a', 'b'}
  {
    var v := (r as bv8 & 0x3) | 0x8;
    assert v == 8 || v == 9 || v == 10 || v == 11;
  }

  /** Filling keeps the pattern's length and fills every place as the pattern says. */
  lemma {:induction false} FillConforms(t: string, draws: seq<nat>)
    requires |draws| == Placeholders(t) && ValidDraws(draws)
    ensures |Fill(t, draws)| == |t|
    ensures forall i :: 0 <= i < |t| ==> Conforms(t[i], Fill(t, draws)[i])
  {
    if t != [] {
      var rest := if t[0] == 'x' || t[0] == 'y' then draws[1..] else draws;
      FillConforms(t[1..], rest);
      if t[0] == 'y' {
        VariantDigit(draws[0]);
      }
      var r := Fill(t, draws);
      forall i | 0 <= i < |t|
        ensures Conforms(t[i], r[i])
      {
        if i > 0 {
          assert t[i] == t[1..][i - 1];
        }
      }
    }
  }

  lemma {:induction false} PlaceholdersAppend(a: string, b: string)
    ensures Placeholders(a + b) == Placeholders(a) + Placeholders(b)
  {
    if a == [] {
      assert a + b == b;
    } else {
      assert (a + b)[0] == a[0] && (a + b)[1..] == a[1..] + b;
      PlaceholdersAppend(a[1..], b);
    }
  }

  lemma {:induction false} XsPlaceholders(n: nat)
    ensures Placeholders(Xs(n)) == n
  {
    if n > 0 {
      assert Xs(n)[1..] == Xs(n - 1);
      XsPlaceholders(n - 1);
    }
  }

  lemma TemplatePlaceholders()
    ensures Placeholders(RequestIdTemplate) == 31
  {
    XsPlaceholders(8);
    XsPlaceholders(4);
    XsPlaceholders(3);
    XsPlaceholders(12);
    assert Placeholders("-") == 0;
    assert Placeholders("-4") == 0;
    assert Placeholders("-y") == 1;
    var parts := [Xs(8), "-", Xs(4), "-4", Xs(3), "-y", Xs(3), "-", Xs(12)];
    PlaceholdersAppend(Xs(8), "-");
    PlaceholdersAppend(Xs(8) + "-", Xs(4));
    PlaceholdersAppend(Xs(8) + "-" + Xs(4), "-4");
    PlaceholdersAppend(Xs(8) + "-" + Xs(4) + "-4", Xs(3));
    PlaceholdersAppend(Xs(8) + "-" + Xs(4) + "-4" + Xs(3), "-y");
    PlaceholdersAppend(Xs(8) + "-" + Xs(4) + "-4" + Xs(3) + "-y", Xs(3));
    PlaceholdersAppend(Xs(8) + "-" + Xs(4) + "-4" + Xs(3) + "-y" + Xs(3), "-");
    PlaceholdersAppend(Xs(8) + "-" + Xs(4) + "-4" + Xs(3) + "-y" + Xs(3) + "-", Xs(12));
  }

  /**
   * `generateRequestId()`, given its 31 random draws: a 36-character UUID-v4 string
   * with hyphens at 8, 13, 18 and 23, version digit '4' at 14, variant digit (8, 9, a
   * or b) at 19 and lowercase hex digits everywhere else.
   */
  function GenerateRequestId(draws: seq<nat>): (r: string)
    requires |draws| == 31 && ValidDraws(draws)
    ensures |r| == 36
    ensures r[8] == '-' && r[13] == '-' && r[18] == '-' && r[23] == '-'
    ensures r[14] == '4'
    ensures r[19] in {'8', '9', 'a', 'b'}
    ensures forall i :: 0 <= i < 36 && i !in {8, 13, 14, 18, 19, 23} ==> IsLowerHex(r[i])
  {
    TemplatePlaceholders();
    FillConforms(RequestIdTemplate, draws);
    var r := Fill(RequestIdTemplate, draws);
    assert forall i :: 0 <= i < 36 && i !in {8, 13, 14, 18, 19, 23} ==> RequestIdTemplate[i] == 'x';
    r
  }

  // ---------------------------------------------------------------------------
  // Presets

  /** The JSON content type of the UMS and Sellernet presets. */
  const JsonContentType: Headers := map["Content-Type" := "application/json"]

  /** The base, PropertyGuru and CORS keys are kept, and the content type is JSON. */
  lemma JsonPresetKeys(groups: seq<Headers>)
    requires groups == [Base, PropertyGuru, Cors, JsonContentType]
    ensures Base.Keys + PropertyGuru.Keys + Cors.Keys <= MergeHeaders(groups).Keys
    ensures "Content-Type" in MergeHeaders(groups) && MergeHeaders(groups)["Content-Type"] == "application/json"
  {
    MergeHeadersLastWins(groups, 3, "Content-Type");
    MergeHeadersKeeps(groups, 0);
    MergeHeadersKeeps(groups, 1);
    MergeHeadersKeeps(groups, 2);
  }

  /** `HeaderPresets.ums()` */
  function Ums(): (r: Headers)
    ensures Base.Keys + PropertyGuru.Keys + Cors.Keys <= r.Keys
    ensures "Content-Type" in r && r["Content-Type"] == "application/json"
  {
    JsonPresetKeys([Base, PropertyGuru, Cors, JsonContentType]);
    MergeHeaders([Base, PropertyGuru, Cors, JsonContentType])
  }

  /** `HeaderPresets.bffListing()`, given the draws of its request id. */
  function BffListing(draws: seq<nat>): (r: Headers)
    requires |draws| == 31 && ValidDraws(draws)
    ensures "content-type" in r && "X-requestId" in r
  {
    MergeHeaders([
      Base, PropertyGuru, Cors, Security,
      map["content-type" := "application/json; charset=UTF-8", "X-requestId" := GenerateRequestId(draws)]])
  }

  /** `HeaderPresets.sellernet()` */
  function Sellernet(): (r: Headers)
    ensures Base.Keys + PropertyGuru.Keys + Cors.Keys <= r.Keys
    ensures "Content-Type" in r && r["Content-Type"] == "application/json"
  {
    JsonPresetKeys([Base, PropertyGuru, Cors, JsonContentType]);
    MergeHeaders([Base, PropertyGuru, Cors, JsonContentType])
  }

  /** The UMS and Sellernet presets are the same headers. */
  lemma UmsIsSellernet()
    ensures Ums() == Sellernet()
  {
  }

  /**
   * The BFF preset carries every base, PropertyGuru, CORS and security header key,
   * the JSON content type and a freshly generated request id.
   */
  lemma BffListingKeys(draws: seq<nat>)
    requires |draws| == 31 && ValidDraws(draws)
    ensures Base.Keys + PropertyGuru.Keys + Cors.Keys + Security.Keys <= BffListing(draws).Keys
    ensures BffListing(draws)["content-type"] == "application/json; charset=UTF-8"
    ensures BffListing(draws)["X-requestId"] == GenerateRequestId(draws)
  {
    var last := map["content-type" := "application/json; charset=UTF-8", "X-requestId" := GenerateRequestId(draws)];
    var groups := [Base, PropertyGuru, Cors, Security, last];
    MergeHeadersLastWins(groups, 4, "content-type");
    MergeHeadersLastWins(groups, 4, "X-requestId");
    MergeHeadersKeeps(groups, 0);
    MergeHeadersKeeps(groups, 1);
    MergeHeadersKeeps(groups, 2);
    MergeHeadersKeeps(groups, 3);
  }
}
