/**
 * internal/cloudsdk/cloudsdk.go: the cloud client the provider talks to.
 * It asks the account service for the regions once, keeps one region
 * service client per region name, and serves every by-namespace-ID
 * operation by first asking the account service which region and tenant
 * ID the namespace belongs to. Each request's outcome is a parameter.
 */
module InternalCloudSdk {
  import opened Wrappers
  import opened GoErrors
  import Mgmt
  import Acc
  import InternalApigen
  import InternalRegion
  import Text
  import Uuid

  const StatusOK := 200
  const StatusForbidden := 403
  const StatusNotFound := 404

  /** The value of the X-API-KEY header: key and secret joined by a colon. */
  function ApiKeyPair(apiKey: string, apiSecret: string): (r: string)
    ensures |r| == |apiKey| + 1 + |apiSecret| && r[|apiKey|] == ':'
    ensures r[..|apiKey|] == apiKey && r[|apiKey| + 1..] == apiSecret
  {
    apiKey + ":" + apiSecret
  }

  /** When the key holds no colon, the header value determines both key and secret. */
  lemma ApiKeyPairInjective(k1: string, s1: string, k2: string, s2: string)
    requires ':' !in k1 && ':' !in k2
    ensures ApiKeyPair(k1, s1) == ApiKeyPair(k2, s2) <==> k1 == k2 && s1 == s2
  {
    if ApiKeyPair(k1, s1) == ApiKeyPair(k2, s2) {
      if |k1| != |k2| {
        assert false;
      }
    }
  }

  /** The client's state: the endpoint, the key pair and a region service URL per region name. */
  datatype CloudClient = CloudClient(endpoint: string, apiKeyPair: string, regions: map<string, string>)

  /** The region map built by the loop in NewCloudClient: a later duplicate name overwrites an earlier one. */
  function RegionMap(regions: seq<Acc.Region>): (m: map<string, string>)
    ensures m.Keys == set i | 0 <= i < |regions| :: regions[i].regionName
    decreases |regions|
  {
    if |regions| == 0 then map[]
    else
      var last := regions[|regions| - 1];
      var m := RegionMap(regions[..|regions| - 1]);
      assert forall i :: 0 <= i < |regions| - 1 ==> regions[..|regions| - 1][i] == regions[i];
      m[last.regionName := last.url]
  }

  /** A region's URL is the one of the last region listed under its name. */
  lemma {:induction false} RegionMapLastWins(regions: seq<Acc.Region>, i: nat)
    requires i < |regions|
    requires forall j :: i < j < |regions| ==> regions[j].regionName != regions[i].regionName
    ensures regions[i].regionName in RegionMap(regions)
    ensures RegionMap(regions)[regions[i].regionName] == regions[i].url
    decreases |regions|
  {
    if i < |regions| - 1 {
      var front := regions[..|regions| - 1];
      assert front[i] == regions[i];
      RegionMapLastWins(front, i);
    }
  }

  /**
   * NewCloudClient: the region listing must answer 200 with a non-nil,
   * non-empty array; the region map is keyed by region name only.
   */
  function NewCloudClient(endpoint: string, apiKey: string, apiSecret: string, call: Mgmt.Call<seq<Acc.Region>>): (r: Result<CloudClient, Error>)
    ensures r.Ok? <==> call.Ok? && call.value.statusCode == StatusOK && call.value.payload.Some? && |call.value.payload.value| > 0
    ensures r.Ok? ==> r.value.apiKeyPair == ApiKeyPair(apiKey, apiSecret) && r.value.endpoint == endpoint
    ensures r.Ok? ==> r.value.regions.Keys == set i | 0 <= i < |call.value.payload.value| :: call.value.payload.value[i].regionName
    ensures call.Ok? && call.value.statusCode == StatusOK && call.value.payload == Some([]) ==> r == Err(Plain("unexpected error, region array is empty"))
    ensures call.Ok? && call.value.statusCode == StatusOK && call.value.payload.None? ==> r == Err(Plain("unexpected error, region array is nil"))
  {
    match call
    case Err(e) => Err(Wrapped(e, "failed to get regions"))
    case Ok(res) =>
      match InternalApigen.ExpectStatusCodeWithMessage(InternalApigen.SpecResponse("", res.statusCode), StatusOK, [])
      case Some(e) => Err(Wrapped(e, "message " + res.body))
      case None =>
        match res.payload
        case None => Err(Plain("unexpected error, region array is nil"))
        case Some(regions) =>
          if |regions| == 0 then Err(Plain("unexpected error, region array is empty"))
          else Ok(CloudClient(endpoint, ApiKeyPair(apiKey, apiSecret), RegionMap(regions)))
  }

  /** getRegionClient: the region service for a name, or "region … is not found". */
  function GetRegionClient(c: CloudClient, region: string): (r: Result<string, Error>)
    ensures r.Ok? <==> region in c.regions
    ensures r.Ok? ==> r.value == c.regions[region]
    ensures r.Err? ==> r.error == Plain("region " + region + " is not found")
  {
    if region in c.regions then Ok(c.regions[region])
    else Err(Plain("region " + region + " is not found"))
  }

  /**
   * getClusterInfo: 404 is ErrClusterNotFound naming the namespace; every
   * other status returns the payload as it is, nil included.
   */
  function GetClusterInfo(nsID: Uuid.Uuid, call: Mgmt.Call<Acc.Tenant>): (r: Result<Option<Acc.Tenant>, Error>)
    ensures call.Ok? && call.value.statusCode == StatusNotFound ==> (r.Err? && Is(r.error, ClusterNotFound)
      && ErrorText(r.error) == "cluster " + Uuid.ToString(nsID) + ": " + "cluster not found")
    ensures call.Ok? && call.value.statusCode != StatusNotFound ==> r == Ok(call.value.payload)
    ensures call.Err? ==> r == Err(Wrapped(call.error, "failed to call API to get cluster info"))
  {
    match call
    case Err(e) => Err(Wrapped(e, "failed to call API to get cluster info"))
    case Ok(res) =>
      if res.statusCode == StatusNotFound then Err(Wrapped(Sentinel(ClusterNotFound), "cluster " + Uuid.ToString(nsID)))
      else Ok(res.payload)
  }

  /**
   * getClusterInfoAndRegionClient: the account service's tenant record and
   * the region service of its region; a nil record is dereferenced.
   */
  function ResolveCluster(c: CloudClient, nsID: Uuid.Uuid, call: Mgmt.Call<Acc.Tenant>): (r: Outcome<(Acc.Tenant, string)>)
    ensures r.Return? <==> (GetClusterInfo(nsID, call).Ok? && GetClusterInfo(nsID, call).value.Some?
      && GetClusterInfo(nsID, call).value.value.region in c.regions)
    ensures r.Return? ==> r.value == (GetClusterInfo(nsID, call).value.value, c.regions[GetClusterInfo(nsID, call).value.value.region])
    ensures r.Panic? <==> GetClusterInfo(nsID, call) == Ok(None)
  {
    match GetClusterInfo(nsID, call)
    case Err(e) => Fail(e)
    case Ok(None) => Panic(NilDereference)
    case Ok(Some(t)) =>
      match GetRegionClient(c, t.region)
      case Err(e) => Fail(e)
      case Ok(rs) => Return((t, rs))
  }

  /**
   * Every by-namespace-ID operation: when the resolution fails, its failure
   * is returned and the region service is never reached; otherwise the
   * region service's own outcome is returned unchanged.
   */
  function ByNsID<T>(resolved: Outcome<(Acc.Tenant, string)>, reached: Outcome<T>): (r: Outcome<T>)
    ensures resolved.Fail? ==> r == Fail(resolved.err)
    ensures resolved.Panic? ==> r == Panic(resolved.reason)
    ensures resolved.Return? ==> r == reached
  {
    match resolved
    case Fail(e) => Fail(e)
    case Panic(p) => Panic(p)
    case Return(_) => reached
  }

  /** An unknown namespace never reaches the region service, whatever that service would answer. */
  lemma UnknownNamespaceStopsEarly<T>(c: CloudClient, nsID: Uuid.Uuid, res: Mgmt.Response<Acc.Tenant>, a: Outcome<T>, b: Outcome<T>)
    requires res.statusCode == StatusNotFound
    ensures ByNsID(ResolveCluster(c, nsID, Ok(res)), a) == ByNsID(ResolveCluster(c, nsID, Ok(res)), b)
    ensures ByNsID(ResolveCluster(c, nsID, Ok(res)), a).Fail?
    ensures Is(ByNsID(ResolveCluster(c, nsID, Ok(res)), a).err, ClusterNotFound)
  {
  }

  /** Ping: 403 is the bare ErrInvalidCredential, 200 is nil, anything else an error wrapped with the body. */
  function Ping(call: Mgmt.Call<()>): (r: Option<Error>)
    ensures r.None? <==> call.Ok? && call.value.statusCode == StatusOK
    ensures call.Ok? && call.value.statusCode == StatusForbidden ==> r == Some(Sentinel(InvalidCredential))
    ensures call.Ok? && call.value.statusCode != StatusForbidden && r.Some? ==> !Is(r.value, InvalidCredential)
  {
    match call
    case Err(e) => Some(Wrapped(e, "failed to ping endpoint"))
    case Ok(res) =>
      if res.statusCode == StatusForbidden then Some(Sentinel(InvalidCredential))
      else match InternalApigen.ExpectStatusCodeWithMessage(InternalApigen.SpecResponse("", res.statusCode), StatusOK, [])
        case Some(e) => Some(Wrapped(e, "message " + res.body))
        case None => None
  }

  /** The index of the first user with exactly that name. */
  function FirstUser(users: seq<Mgmt.DBUser>, username: string): (r: Option<nat>)
    ensures r.Some? ==> r.value < |users| && users[r.value].username == username
    ensures r.Some? ==> forall i :: 0 <= i < r.value ==> users[i].username != username
    ensures r.None? <==> forall i :: 0 <= i < |users| ==> users[i].username != username
  {
    if |users| == 0 then None
    else if users[0].username == username then Some(0)
    else match FirstUser(users[1..], username)
      case Some(i) => Some(i + 1)
      case None => None
  }

  /**
   * GetClusterUser, once the region service has listed the cluster's
   * users: ErrClusterNotFound is re-wrapped with the namespace ID, the
   * first user with the exact name is returned, else "user … not found".
   */
  function GetClusterUser(nsID: Uuid.Uuid, username: string, users: Outcome<seq<Mgmt.DBUser>>): (r: Outcome<Mgmt.DBUser>)
    ensures r.Return? <==> users.Return? && FirstUser(users.value, username).Some?
    ensures r.Return? ==> r.value == users.value[FirstUser(users.value, username).value] && r.value.username == username
    ensures users.Fail? && Is(users.err, ClusterNotFound) ==> r == Fail(Wrapped(Sentinel(ClusterNotFound), "cluster " + Uuid.ToString(nsID)))
    ensures users.Fail? && !Is(users.err, ClusterNotFound) ==> r == Fail(users.err)
    ensures users.Panic? ==> r == Panic(users.reason)
    ensures users.Return? && FirstUser(users.value, username).None? ==>
      r == Fail(Plain("user " + username + " not found in cluster " + Uuid.ToString(nsID)))
  {
    match users
    case Panic(p) => Panic(p)
    case Fail(e) =>
      if Is(e, ClusterNotFound) then Fail(Wrapped(Sentinel(ClusterNotFound), "cluster " + Uuid.ToString(nsID)))
      else Fail(e)
    case Return(us) =>
      match FirstUser(us, username)
      case Some(i) => Return(us[i])
      case None => Fail(Plain("user " + username + " not found in cluster " + Uuid.ToString(nsID)))
  }

  /** CreateCluserUser, once the region service has answered: ErrClusterNotFound is re-wrapped with the namespace ID. */
  function CreateCluserUser(nsID: Uuid.Uuid, created: Result<Option<Mgmt.DBUser>, Error>): (r: Result<Option<Mgmt.DBUser>, Error>)
    ensures r.Ok? <==> created.Ok?
    ensures r.Ok? ==> r == created
    ensures r.Err? ==> (Is(r.error, ClusterNotFound) <==> Is(created.error, ClusterNotFound))
  {
    match created
    case Ok(u) => Ok(u)
    case Err(e) =>
      if Is(e, ClusterNotFound) then Err(Wrapped(Sentinel(ClusterNotFound), "cluster " + Uuid.ToString(nsID)))
      else Err(e)
  }

  /** The offset and limit one listing request carries. */
  datatype PageRequest = PageRequest(offset: nat, limit: nat)

  const FirstRequest := PageRequest(0, 10)

  /** A listing request that got a 200 with a page in it. */
  predicate Answered(call: Mgmt.Call<Acc.PrivateLinkSizePage>)
  {
    call.Ok? && call.value.statusCode == StatusOK && call.value.payload.Some?
  }

  /** The loop's exit test limit*(offset+1) >= size, in uint64 arithmetic. */
  predicate LastPage(p: Acc.PrivateLinkSizePage)
  {
    (p.limit * ((p.offset + 1) % Acc.U64)) % Acc.U64 >= p.size
  }

  /** The request after a page: the server's offset plus one (wrapping) and the server's limit. */
  function NextRequest(p: Acc.PrivateLinkSizePage): (r: PageRequest)
    requires Acc.IsU64Page(p)
    ensures r.offset < Acc.U64 && r.limit == p.limit
    ensures p.offset + 1 < Acc.U64 ==> r.offset == p.offset + 1
  {
    PageRequest((p.offset + 1) % Acc.U64, p.limit)
  }

  /** The links of a run of answered requests, in request order. */
  function Collected(calls: seq<Mgmt.Call<Acc.PrivateLinkSizePage>>): seq<Acc.PrivateLink>
    requires forall i :: 0 <= i < |calls| ==> Answered(calls[i])
    decreases |calls|
  {
    if |calls| == 0 then []
    else
      assert Answered(calls[|calls| - 1]);
      Collected(calls[..|calls| - 1]) + calls[|calls| - 1].value.payload.value.privateLinks
  }

  /** How the listing loop ends; Unanswered when it would send more requests than there are answers. */
  datatype Listing = Listed(links: seq<Acc.PrivateLink>) | ListError(err: Error) | ListPanic | Unanswered

  /** The error of a listing request that did not get a 200. */
  function ListingError(call: Mgmt.Call<Acc.PrivateLinkSizePage>): (r: Option<Error>)
    ensures r.None? <==> call.Ok? && call.value.statusCode == StatusOK
  {
    match call
    case Err(e) => Some(Wrapped(e, "failed to call API get private links"))
    case Ok(res) => InternalApigen.ExpectStatusCodeWithMessage(InternalApigen.SpecResponse("", res.statusCode), StatusOK, [])
  }

  /**
   * The paging loop of GetPrivateLink. `calls` answers the requests in
   * order. The first request asks for offset 0 and limit 10; every later
   * one asks for the previous page's offset plus one, with its limit; the
   * loop stops after a page where limit*(offset+1) >= size, and returns
   * the pages' links concatenated in request order.
   */
  method ListPrivateLinks(calls: seq<Mgmt.Call<Acc.PrivateLinkSizePage>>) returns (requests: seq<PageRequest>, r: Listing)
    requires forall i :: 0 <= i < |calls| && Answered(calls[i]) ==> Acc.IsU64Page(calls[i].value.payload.value)
    ensures 1 <= |requests| <= |calls| + 1 && requests[0] == FirstRequest
    ensures forall i :: 0 <= i < |requests| - 1 ==> (Answered(calls[i]) && !LastPage(calls[i].value.payload.value)
      && requests[i + 1] == NextRequest(calls[i].value.payload.value))
    ensures r.Unanswered? <==> |requests| == |calls| + 1
    ensures r.Listed? ==> (Answered(calls[|requests| - 1]) && LastPage(calls[|requests| - 1].value.payload.value)
      && r.links == Collected(calls[..|requests|]))
    ensures r.ListError? ==> |requests| <= |calls| && ListingError(calls[|requests| - 1]) == Some(r.err)
    ensures r.ListPanic? ==> (|requests| <= |calls| && calls[|requests| - 1].Ok?
      && calls[|requests| - 1].value.statusCode == StatusOK && calls[|requests| - 1].value.payload.None?)
  {
    requests := [FirstRequest];
    var links: seq<Acc.PrivateLink> := [];
    var i := 0;
    while true
      invariant 0 <= i <= |calls| && |requests| == i + 1 && requests[0] == FirstRequest
      invariant forall j :: 0 <= j < i ==> (Answered(calls[j]) && !LastPage(calls[j].value.payload.value)
        && requests[j + 1] == NextRequest(calls[j].value.payload.value))
      invariant links == Collected(calls[..i])
      decreases |calls| - i
    {
      if i == |calls| {
        r := Unanswered;
        return;
      }
      var call := calls[i];
      var err := ListingError(call);
      if err.Some? {
        r := ListError(err.value);
        return;
      }
      if call.value.payload.None? {
        r := ListPanic;
        return;
      }
      var page := call.value.payload.value;
      assert calls[..i + 1][..i] == calls[..i];
      links := links + page.privateLinks;
      if LastPage(page) {
        r := Listed(links);
        return;
      }
      requests := requests + [NextRequest(page)];
      i := i + 1;
    }
  }

  /** Turning a finished listing into the outcome GetPrivateLink continues from. */
  function ListingOutcome(l: Listing): (r: Outcome<seq<Acc.PrivateLink>>)
    requires !l.Unanswered?
    ensures r.Return? <==> l.Listed?
    ensures r.Fail? <==> l.ListError?
  {
    match l
    case Listed(links) => Return(links)
    case ListError(e) => Fail(e)
    case ListPanic => Panic(NilDereference)
  }

  /** The index of the first listed link with the given ID. */
  function FirstLink(links: seq<Acc.PrivateLink>, id: Uuid.Uuid): (r: Option<nat>)
    ensures r.Some? ==> r.value < |links| && links[r.value].id == id
    ensures r.Some? ==> forall i :: 0 <= i < r.value ==> links[i].id != id
    ensures r.None? <==> forall i :: 0 <= i < |links| ==> links[i].id != id
  {
    if |links| == 0 then None
    else if links[0].id == id then Some(0)
    else match FirstLink(links[1..], id)
      case Some(i) => Some(i + 1)
      case None => None
  }

  /**
   * GetPrivateLink after the listing: the first listed link with the ID
   * (else ErrPrivateLinkNotFound), its region's service, the owning
   * cluster by tenant ID, then the link itself; the result pairs that link
   * with the cluster's namespace ID, dereferencing the cluster.
   */
  function GetPrivateLink(c: CloudClient, id: Uuid.Uuid, links: Outcome<seq<Acc.PrivateLink>>,
                          cluster: Result<Option<Mgmt.Tenant>, Error>, link: Result<Option<Mgmt.PrivateLink>, Error>): (r: Outcome<Mgmt.PrivateLinkInfo>)
    ensures links.Return? && FirstLink(links.value, id).None? ==>
      r.Fail? && Is(r.err, PrivateLinkNotFound) && ErrorText(r.err) == "private link ID " + Uuid.ToString(id) + ": " + "private link not found"
    ensures links.Return? && FirstLink(links.value, id).Some? && links.value[FirstLink(links.value, id).value].region !in c.regions ==>
      r == Fail(Plain("region " + links.value[FirstLink(links.value, id).value].region + " is not found"))
    ensures r.Return? ==> (links.Return? && FirstLink(links.value, id).Some? && cluster.Ok? && cluster.value.Some? && link.Ok?
      && r.value == Mgmt.PrivateLinkInfo(link.value, cluster.value.value.nsId))
    ensures r.Panic? && links.Return? ==> cluster == Ok(None) && link.Ok?
  {
    match links
    case Fail(e) => Fail(e)
    case Panic(p) => Panic(p)
    case Return(ls) =>
      match FirstLink(ls, id)
      case None => Fail(Wrapped(Sentinel(PrivateLinkNotFound), "private link ID " + Uuid.ToString(id)))
      case Some(i) =>
        var info := ls[i];
        match GetRegionClient(c, info.region)
        case Err(e) => Fail(e)
        case Ok(_) =>
          match cluster
          case Err(e) => Fail(Wrapped(e, "failed to get cluster through id " + Text.Decimal(info.tenantId)
                                      + " provided by private link with ID " + Uuid.ToString(id)))
          case Ok(t) =>
            match link
            case Err(e) => Fail(e)
            case Ok(pl) =>
              if t.None? then Panic(NilDereference)
              else Return(Mgmt.PrivateLinkInfo(pl, t.value.nsId))
  }
}
