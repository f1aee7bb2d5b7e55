/**
 * pkg/cloudsdk/account.go: the older, exported account service client. It
 * lists the regions once and files them by platform and then by region
 * name; a region service client is then built for any pair, known or not.
 * Each request's outcome is a parameter.
 */
module PkgAccount {
  import opened Wrappers
  import opened GoErrors
  import Mgmt
  import Acc
  import PkgApigen
  import InternalCloudSdk

  const StatusOK := 200
  const StatusForbidden := 403

  /** The client's state: the endpoint, the X-API-KEY value and the regions by platform, then name. */
  datatype AccountServiceClient = AccountServiceClient(
    endpoint: string,
    apiKeyPair: string,
    regions: map<string, map<string, Acc.Region>>)

  /** A region service client: the server URL and the X-API-KEY value it sends. */
  datatype RegionServiceClient = RegionServiceClient(server: string, apiKeyPair: string)

  /** Some region in the list has this platform and this name. */
  predicate Listed(regions: seq<Acc.Region>, platform: string, name: string)
  {
    exists i :: 0 <= i < |regions| && regions[i].platform == platform && regions[i].regionName == name
  }

  /** Region i exists and no later region has both its platform and its name. */
  predicate LastOfPair(regions: seq<Acc.Region>, i: nat)
  {
    i < |regions| && forall j :: i < j < |regions| ==>
      !(regions[j].platform == regions[i].platform && regions[j].regionName == regions[i].regionName)
  }

  /** One iteration of the loop: the region goes under its platform's inner map, made if missing. */
  function File(m: map<string, map<string, Acc.Region>>, r: Acc.Region): (res: map<string, map<string, Acc.Region>>)
    ensures forall p, n :: p in res && n in res[p] <==> (p in m && n in m[p]) || (p == r.platform && n == r.regionName)
    ensures r.platform in res && r.regionName in res[r.platform] && res[r.platform][r.regionName] == r
    ensures forall p, n :: p in m && n in m[p] && !(p == r.platform && n == r.regionName) ==> p in res && n in res[p] && res[p][n] == m[p][n]
  {
    var inner := if r.platform in m then m[r.platform] else map[];
    m[r.platform := inner[r.regionName := r]]
  }

  /**
   * The two-level map built by the loop in NewAccountServiceClient: an inner
   * map is made the first time its platform is seen, and a later region with
   * the same platform and name overwrites an earlier one.
   */
  function NestedRegionMap(regions: seq<Acc.Region>): (m: map<string, map<string, Acc.Region>>)
    ensures forall p, n :: p in m && n in m[p] <==> Listed(regions, p, n)
    ensures forall p, n :: p in m && n in m[p] ==> m[p][n].platform == p && m[p][n].regionName == n
    decreases |regions|
  {
    if |regions| == 0 then map[]
    else
      var last := regions[|regions| - 1];
      var front := regions[..|regions| - 1];
      ListedSplit(regions);
      File(NestedRegionMap(front), last)
  }

  /** A pair is listed exactly when it is listed before the last region or is the last region's. */
  lemma ListedSplit(regions: seq<Acc.Region>)
    requires |regions| > 0
    ensures var last := regions[|regions| - 1];
      forall p, n :: Listed(regions, p, n) <==> Listed(regions[..|regions| - 1], p, n) || (p == last.platform && n == last.regionName)
  {
    var front := regions[..|regions| - 1];
    forall p, n | Listed(front, p, n) ensures Listed(regions, p, n) {
      var i :| 0 <= i < |front| && front[i].platform == p && front[i].regionName == n;
      assert regions[i] == front[i];
    }
    forall p, n | Listed(regions, p, n) && !(p == regions[|regions| - 1].platform && n == regions[|regions| - 1].regionName)
      ensures Listed(front, p, n)
    {
      var i :| 0 <= i < |regions| && regions[i].platform == p && regions[i].regionName == n;
      assert i < |front| && front[i] == regions[i];
    }
  }

  /** A region is filed under its own platform and name unless a later region takes both. */
  lemma {:induction false} NestedRegionMapLastWins(regions: seq<Acc.Region>, i: nat)
    requires LastOfPair(regions, i)
    ensures regions[i].platform in NestedRegionMap(regions)
    ensures regions[i].regionName in NestedRegionMap(regions)[regions[i].platform]
    ensures NestedRegionMap(regions)[regions[i].platform][regions[i].regionName] == regions[i]
    decreases |regions|
  {
    if i < |regions| - 1 {
      var front := regions[..|regions| - 1];
      assert front[i] == regions[i];
      assert LastOfPair(front, i);
      NestedRegionMapLastWins(front, i);
    }
  }

  /**
   * NewAccountServiceClient: the region listing must answer 200 with a
   * non-nil, non-empty array. A status mismatch is returned as the helper
   * builds it, with no context added.
   */
  function NewAccountServiceClient(endpoint: string, apiKey: string, apiSecret: string,
                                   call: Mgmt.Call<seq<Acc.Region>>): (r: Result<AccountServiceClient, Error>)
    ensures r.Ok? <==> call.Ok? && call.value.statusCode == StatusOK && call.value.payload.Some? && |call.value.payload.value| > 0
    ensures r.Ok? ==> r.value.endpoint == endpoint && r.value.apiKeyPair == InternalCloudSdk.ApiKeyPair(apiKey, apiSecret)
    ensures r.Ok? ==> forall p, n :: p in r.value.regions && n in r.value.regions[p] <==> Listed(call.value.payload.value, p, n)
    ensures call.Err? ==> r == Err(Wrapped(call.error, "failed to get regions"))
    ensures call.Ok? && call.value.statusCode != StatusOK ==>
      r == Err(PkgApigen.ExpectStatusCodeWithMessage(PkgApigen.SpecResponse("", call.value.statusCode), StatusOK).value)
    ensures call.Ok? && call.value.statusCode == StatusOK && call.value.payload.None? ==> r == Err(Plain("unexpected error, region array is nil"))
    ensures call.Ok? && call.value.statusCode == StatusOK && call.value.payload == Some([]) ==> r == Err(Plain("unexpected error, region array is empty"))
  {
    match call
    case Err(e) => Err(Wrapped(e, "failed to get regions"))
    case Ok(res) =>
      match PkgApigen.ExpectStatusCodeWithMessage(PkgApigen.SpecResponse("", res.statusCode), StatusOK)
      case Some(e) => Err(e)
      case None =>
        match res.payload
        case None => Err(Plain("unexpected error, region array is nil"))
        case Some(regions) =>
          if |regions| == 0 then Err(Plain("unexpected error, region array is empty"))
          else Ok(AccountServiceClient(endpoint, InternalCloudSdk.ApiKeyPair(apiKey, apiSecret), NestedRegionMap(regions)))
  }

  /**
   * Ping: a transport error is wrapped, 403 is ErrInvalidCredential, and any
   * other code but 200 is the helper's mismatch error.
   */
  function Ping(call: Mgmt.Call<()>): (r: Option<Error>)
    ensures r.None? <==> call.Ok? && call.value.statusCode == StatusOK
    ensures call.Ok? ==> (r.Some? && Is(r.value, PkgInvalidCredential) <==> call.value.statusCode == StatusForbidden)
    ensures call.Err? ==> r == Some(Wrapped(call.error, "failed to ping endpoint"))
  {
    match call
    case Err(e) => Some(Wrapped(e, "failed to ping endpoint"))
    case Ok(res) =>
      if res.statusCode == StatusForbidden then Some(Sentinel(PkgInvalidCredential))
      else PkgApigen.ExpectStatusCodeWithMessage(PkgApigen.SpecResponse("", res.statusCode), StatusOK)
  }

  /**
   * GetRegionServiceClient: a lookup in Go's maps never fails; an unknown
   * platform or region reads the zero Region, whose URL is empty. No error
   * is ever returned.
   */
  function GetRegionServiceClient(c: AccountServiceClient, platform: string, region: string): (r: RegionServiceClient)
    ensures r.apiKeyPair == c.apiKeyPair
    ensures platform in c.regions && region in c.regions[platform] ==> r.server == c.regions[platform][region].url
    ensures !(platform in c.regions && region in c.regions[platform]) ==> r.server == ""
  {
    var url := if platform in c.regions && region in c.regions[platform] then c.regions[platform][region].url else "";
    RegionServiceClient(url, c.apiKeyPair)
  }

  /**
   * A client built from a listing serves every listed pair at the URL of
   * the last region listed with that platform and name, and every pair the
   * listing lacks at the empty URL.
   */
  lemma NewThenRegionClient(endpoint: string, apiKey: string, apiSecret: string,
                            call: Mgmt.Call<seq<Acc.Region>>, i: nat, platform: string, name: string)
    requires NewAccountServiceClient(endpoint, apiKey, apiSecret, call).Ok?
    ensures var regions := call.value.payload.value;
      var c := NewAccountServiceClient(endpoint, apiKey, apiSecret, call).value;
      (LastOfPair(regions, i) ==> GetRegionServiceClient(c, regions[i].platform, regions[i].regionName).server == regions[i].url)
      && (!Listed(regions, platform, name) ==> GetRegionServiceClient(c, platform, name).server == "")
  {
    var regions := call.value.payload.value;
    if LastOfPair(regions, i) {
      NestedRegionMapLastWins(regions, i);
    }
  }
}
