/**
 * internal/cloudsdk/region.go: the region service client. Every method
 * sends one request through the generated management client and decides,
 * from the transport error and the status code, what to return. Here each
 * request's outcome is a parameter (a Call: transport error or response),
 * and a waiting loop is represented by the error it ends with, or by the
 * decision its callback takes on one tick.
 */
module InternalRegion {
  import opened Wrappers
  import opened GoErrors
  import opened Mgmt
  import InternalApigen
  import Text

  const ComponentCompute := "compute"
  const ComponentCompactor := "compactor"
  const ComponentFrontend := "frontend"
  const ComponentMeta := "meta"
  const ComponentEtcd := "etcd"
  const ComponentPostgresql := "postgresql"

  const StatusOK := 200
  const StatusAccepted := 202
  const StatusNotFound := 404

  /** apigen.ExpectStatusCodeWithMessage(res, code, string(res.Body)). */
  function ExpectWithBody<T>(res: Response<T>, code: int): (r: Option<Error>)
    ensures r.None? <==> res.statusCode == code
  {
    InternalApigen.ExpectStatusCodeWithMessage(InternalApigen.SpecResponse("", res.statusCode), code, [res.body])
  }

  /** A mismatch error is a plain message, so it never answers errors.Is for a sentinel. */
  lemma ExpectWithBodyIsPlain<T>(res: Response<T>, code: int, k: Kind)
    requires res.statusCode != code
    ensures ExpectWithBody(res, code).value.Plain?
    ensures !Is(ExpectWithBody(res, code).value, k)
  {
  }

  /**
   * The shared classification of GetClusterByName and GetClusterByID:
   * 404 is ErrClusterNotFound, any other code but 200 is the mismatch
   * error, and 200 gives the payload (possibly nil).
   */
  function ClassifyTenant(call: Call<Tenant>, notFound: string): (r: Result<Option<Tenant>, Error>)
    ensures r.Ok? <==> call.Ok? && call.value.statusCode == StatusOK
    ensures r.Ok? ==> r.value == call.value.payload
    ensures call.Err? ==> r == Err(Wrapped(call.error, "failed call API to to get cluster"))
    ensures call.Ok? && call.value.statusCode == StatusNotFound ==> r == Err(Wrapped(Sentinel(ClusterNotFound), notFound))
    ensures call.Ok? && call.value.statusCode != StatusNotFound ==> (r.Err? ==> r.error.Plain?)
  {
    match call
    case Err(e) => Err(Wrapped(e, "failed call API to to get cluster"))
    case Ok(res) =>
      if res.statusCode == StatusNotFound then Err(Wrapped(Sentinel(ClusterNotFound), notFound))
      else match ExpectWithBody(res, StatusOK)
        case Some(e) => Err(e)
        case None => Ok(res.payload)
  }

  /** GetClusterByName: the not-found error names the cluster. */
  function GetClusterByName(name: string, call: Call<Tenant>): (r: Result<Option<Tenant>, Error>)
    ensures call.Ok? && call.value.statusCode == StatusNotFound ==>
      r.Err? && Is(r.error, ClusterNotFound) && ErrorText(r.error) == "cluster " + name + " not found: cluster not found"
    ensures r.Ok? <==> call.Ok? && call.value.statusCode == StatusOK
  {
    ClassifyTenant(call, "cluster " + name + " not found")
  }

  /** GetClusterByID: the not-found error names the decimal ID. */
  function GetClusterByID(id: nat, call: Call<Tenant>): (r: Result<Option<Tenant>, Error>)
    ensures call.Ok? && call.value.statusCode == StatusNotFound ==>
      r.Err? && Is(r.error, ClusterNotFound) && ErrorText(r.error) == "cluster " + Text.Decimal(id) + " not found: cluster not found"
    ensures r.Ok? <==> call.Ok? && call.value.statusCode == StatusOK
  {
    ClassifyTenant(call, "cluster " + Text.Decimal(id) + " not found")
  }

  /**
   * IsTenantNameExist: found is (true, nil), ErrClusterNotFound anywhere in
   * the chain is (false, nil), and any other error is wrapped.
   */
  function IsTenantNameExist(name: string, call: Call<Tenant>): (r: Result<bool, Error>)
    ensures r == Ok(true) <==> GetClusterByName(name, call).Ok?
    ensures r == Ok(false) <==> GetClusterByName(name, call).Err? && Is(GetClusterByName(name, call).error, ClusterNotFound)
    ensures r.Err? ==> r.error == Wrapped(GetClusterByName(name, call).error, "failed to get cluster info")
  {
    match GetClusterByName(name, call)
    case Ok(_) => Ok(true)
    case Err(e) => if Is(e, ClusterNotFound) then Ok(false) else Err(Wrapped(e, "failed to get cluster info"))
  }

  /** A 404 means the name is free and a 200 means it is taken, even when the 200 carries no tenant. */
  lemma IsTenantNameExistByStatus(name: string, res: Response<Tenant>)
    ensures res.statusCode == StatusNotFound ==> IsTenantNameExist(name, Ok(res)) == Ok(false)
    ensures res.statusCode == StatusOK ==> IsTenantNameExist(name, Ok(res)) == Ok(true)
    ensures res.statusCode != StatusOK && res.statusCode != StatusNotFound ==> IsTenantNameExist(name, Ok(res)).Err?
  {
    if res.statusCode != StatusOK && res.statusCode != StatusNotFound {
      ExpectWithBodyIsPlain(res, StatusOK, ClusterNotFound);
    }
  }

  /**
   * One tick of waitClusterRunning and of waitClusterStatusByName: a
   * failed lookup stops the wait with a wrapped error, a nil tenant is
   * dereferenced, and otherwise the wait ends when the status is the target.
   */
  function StatusTick(got: Result<Option<Tenant>, Error>, target: string): (r: Outcome<bool>)
    ensures r == Return(true) <==> got.Ok? && got.value.Some? && got.value.value.status == target
    ensures r.Fail? <==> got.Err?
    ensures r.Fail? ==> r.err == Wrapped(got.error, "failed to get the cluster info")
    ensures r.Panic? <==> got == Ok(None)
  {
    match got
    case Err(e) => Fail(Wrapped(e, "failed to get the cluster info"))
    case Ok(None) => Panic(NilDereference)
    case Ok(Some(t)) => Return(t.status == target)
  }

  /** One tick of waitClusterHealthStatusByName: as StatusTick, on the health status. */
  function HealthTick(got: Result<Option<Tenant>, Error>, target: string): (r: Outcome<bool>)
    ensures r == Return(true) <==> got.Ok? && got.value.Some? && got.value.value.healthStatus == target
    ensures r.Fail? <==> got.Err?
    ensures r.Panic? <==> got == Ok(None)
  {
    match got
    case Err(e) => Fail(Wrapped(e, "failed to get the cluster info"))
    case Ok(None) => Panic(NilDereference)
    case Ok(Some(t)) => Return(t.healthStatus == target)
  }

  /** The error a wait for a status ends with, naming the last status seen and the target. */
  function WaitStatusFailure(pollErr: Error, current: string, target: string): (r: Error)
    ensures r.Wrapped? && r.cause == pollErr
    ensures forall k :: Is(r, k) == Is(pollErr, k)
  {
    Wrapped(pollErr, "failed to wait for the cluster, current status: " + current + ", target status: " + target)
  }

  /** The requests an Await method issues, in order. */
  datatype Stage = Send | WaitRunning | WaitHealthy | Reread

  datatype Trace<T> = Trace(stages: seq<Stage>, result: T)

  /**
   * CreateClusterAwait: the POST must answer 202; then the cluster is
   * awaited Running, then Healthy (both by name), then read back by name.
   * The first failure ends the sequence.
   */
  function CreateClusterAwait(create: Call<Tenant>, waitRunning: Option<Error>, waitHealthy: Option<Error>,
                              reread: Result<Option<Tenant>, Error>): (r: Trace<Result<Option<Tenant>, Error>>)
    ensures r.result.Ok? <==> (create.Ok? && create.value.statusCode == StatusAccepted
                               && waitRunning.None? && waitHealthy.None? && reread.Ok?)
    ensures r.result.Ok? ==> r.stages == [Send, WaitRunning, WaitHealthy, Reread] && r.result.value == reread.value
    ensures !(create.Ok? && create.value.statusCode == StatusAccepted) ==> r.stages == [Send] && r.result.Err?
    ensures 1 <= |r.stages| <= 4 && r.stages == [Send, WaitRunning, WaitHealthy, Reread][..|r.stages|]
  {
    match create
    case Err(e) => Trace([Send], Err(Wrapped(e, "failed call API to to create cluster")))
    case Ok(res) =>
      if ExpectWithBody(res, StatusAccepted).Some? then Trace([Send], Err(ExpectWithBody(res, StatusAccepted).value))
      else if waitRunning.Some? then Trace([Send, WaitRunning], Err(waitRunning.value))
      else if waitHealthy.Some? then Trace([Send, WaitRunning, WaitHealthy], Err(waitHealthy.value))
      else match reread
        case Err(e) => Trace([Send, WaitRunning, WaitHealthy, Reread], Err(Wrapped(e, "failed to get cluster info")))
        case Ok(t) => Trace([Send, WaitRunning, WaitHealthy, Reread], Ok(t))
  }

  /**
   * DeleteClusterAwait: a 404 from the DELETE is success with no wait;
   * any other code but 202 is an error; after a 202 the wait's own
   * outcome is returned.
   */
  function DeleteClusterAwait(delete: Call<()>, wait: Option<Error>): (r: Trace<Option<Error>>)
    ensures delete.Ok? && delete.value.statusCode == StatusNotFound ==> r == Trace([Send], None)
    ensures WaitRunning in r.stages <==> delete.Ok? && delete.value.statusCode == StatusAccepted
    ensures r.result.None? <==> delete.Ok? && (delete.value.statusCode == StatusNotFound || (delete.value.statusCode == StatusAccepted && wait.None?))
  {
    match delete
    case Err(e) => Trace([Send], Some(Wrapped(e, "failed call API to to delete cluster")))
    case Ok(res) =>
      if res.statusCode == StatusNotFound then Trace([Send], None)
      else if ExpectWithBody(res, StatusAccepted).Some? then Trace([Send], ExpectWithBody(res, StatusAccepted))
      else Trace([Send, WaitRunning], wait)
  }

  /** One tick of the deletion wait: done exactly when the lookup answers 404. */
  function DeleteTick(get: Call<Tenant>): (r: Outcome<bool>)
    ensures r == Return(true) <==> get.Ok? && get.value.statusCode == StatusNotFound
    ensures r.Fail? <==> get.Err?
    ensures !r.Panic?
  {
    match get
    case Err(e) => Fail(Wrapped(e, "failed to call API to get the latest tenant status"))
    case Ok(res) => Return(res.statusCode == StatusNotFound)
  }

  /** The four Update…Await methods, which differ only in the text of a transport error. */
  datatype UpdateKind = UpdateImage | UpdateResources | UpdateRwConfig | UpdateEtcdConfig

  function UpdateContext(kind: UpdateKind): string
  {
    match kind
    case UpdateImage => "failed to call API to udpate cluster image"
    case UpdateResources => "failed to call API to udpate cluster resource"
    case UpdateRwConfig => "failed to call API to update cluster config"
    case UpdateEtcdConfig => "failed to call API to update cluster config"
  }

  /**
   * Update…Await: read the cluster by ID (a nil tenant is dereferenced),
   * send the update, require 202, then wait for Running.
   */
  function UpdateAwait(kind: UpdateKind, get: Result<Option<Tenant>, Error>, post: Call<()>, wait: Option<Error>): (r: Outcome<()>)
    ensures r.Return? <==> get.Ok? && get.value.Some? && post.Ok? && post.value.statusCode == StatusAccepted && wait.None?
    ensures r.Panic? <==> get == Ok(None)
    ensures get.Err? ==> r == Fail(Wrapped(get.error, "failed to get cluster info"))
    ensures get.Ok? && get.value.Some? && post.Ok? && post.value.statusCode == StatusAccepted && wait.Some? ==> r == Fail(wait.value)
  {
    match get
    case Err(e) => Fail(Wrapped(e, "failed to get cluster info"))
    case Ok(None) => Panic(NilDereference)
    case Ok(Some(_)) =>
      match post
      case Err(e) => Fail(Wrapped(e, UpdateContext(kind)))
      case Ok(res) =>
        if ExpectWithBody(res, StatusAccepted).Some? then Fail(ExpectWithBody(res, StatusAccepted).value)
        else if wait.Some? then Fail(wait.value)
        else Return(())
  }

  /** GetTiers: 200 required; the tier list is read through the payload pointer. */
  function GetTiers(call: Call<seq<Tier>>): (r: Outcome<seq<Tier>>)
    ensures r.Return? <==> call.Ok? && call.value.statusCode == StatusOK && call.value.payload.Some?
    ensures r.Return? ==> r.value == call.value.payload.value
    ensures r.Panic? <==> call.Ok? && call.value.statusCode == StatusOK && call.value.payload.None?
  {
    match call
    case Err(e) => Fail(Wrapped(e, "failed to call API to retrieve information of all tiers"))
    case Ok(res) =>
      if ExpectWithBody(res, StatusOK).Some? then Fail(ExpectWithBody(res, StatusOK).value)
      else if res.payload.None? then Panic(NilDereference)
      else Return(res.payload.value)
  }

  /** The index of the first tier whose Id is set and equals the target. */
  function FirstTier(tiers: seq<Tier>, target: string): (r: Option<nat>)
    ensures r.Some? ==> r.value < |tiers| && tiers[r.value].id == Some(target)
    ensures r.Some? ==> forall i :: 0 <= i < r.value ==> tiers[i].id != Some(target)
    ensures r.None? <==> forall i :: 0 <= i < |tiers| ==> tiers[i].id != Some(target)
  {
    if |tiers| == 0 then None
    else if tiers[0].id == Some(target) then Some(0)
    else match FirstTier(tiers[1..], target)
      case Some(i) => Some(i + 1)
      case None => None
  }

  /** The list a tier offers for one of the six component names. */
  function ComponentList(tier: Tier, component: string): (r: Option<seq<AvailableComponentType>>)
    ensures r.Some? <==> component in {ComponentCompute, ComponentCompactor, ComponentFrontend, ComponentMeta, ComponentEtcd, ComponentPostgresql}
    ensures component == ComponentEtcd ==> r == Some(tier.metaStoreEtcdNodes)
    ensures component == ComponentPostgresql ==> r == Some(tier.metaStorePostgresqlNodes)
  {
    if component == ComponentCompute then Some(tier.availableComputeNodes)
    else if component == ComponentCompactor then Some(tier.availableCompactorNodes)
    else if component == ComponentFrontend then Some(tier.availableFrontendNodes)
    else if component == ComponentMeta then Some(tier.availableMetaNodes)
    else if component == ComponentEtcd then Some(tier.metaStoreEtcdNodes)
    else if component == ComponentPostgresql then Some(tier.metaStorePostgresqlNodes)
    else None
  }

  /**
   * GetAvailableComponentTypes: the first tier whose Id equals the target,
   * else "tier … not found"; then one of six component lists, else
   * "component … not found".
   */
  function GetAvailableComponentTypes(tiers: Outcome<seq<Tier>>, targetTier: string, component: string): (r: Outcome<seq<AvailableComponentType>>)
    ensures tiers.Fail? ==> r == Fail(tiers.err)
    ensures tiers.Panic? ==> r.Panic?
    ensures tiers.Return? && FirstTier(tiers.value, targetTier).None? ==> r == Fail(Plain("tier " + targetTier + " not found"))
    ensures tiers.Return? && FirstTier(tiers.value, targetTier).Some? ==>
      var t := tiers.value[FirstTier(tiers.value, targetTier).value];
      (ComponentList(t, component).None? ==> r == Fail(Plain("component " + component + " not found")))
      && (ComponentList(t, component).Some? ==> r == Return(ComponentList(t, component).value))
  {
    match tiers
    case Fail(e) => Fail(e)
    case Panic(p) => Panic(p)
    case Return(ts) =>
      match FirstTier(ts, targetTier)
      case None => Fail(Plain("tier " + targetTier + " not found"))
      case Some(i) =>
        match ComponentList(ts[i], component)
        case None => Fail(Plain("component " + component + " not found"))
        case Some(l) => Return(l)
  }

  /** A tier listed before another with the same Id shadows it. */
  lemma FirstTierShadows(tiers: seq<Tier>, i: nat, j: nat, target: string)
    requires i < j < |tiers| && tiers[i].id == Some(target) && tiers[j].id == Some(target)
    ensures FirstTier(tiers, target).Some? && FirstTier(tiers, target).value <= i
  {
  }

  /**
   * GetClusterUsers: 404 is ErrClusterNotFound; 200 gives the user list,
   * empty when the response omits it; the payload itself is dereferenced.
   */
  function GetClusterUsers(id: nat, call: Call<Option<seq<DBUser>>>): (r: Outcome<seq<DBUser>>)
    ensures r.Return? <==> call.Ok? && call.value.statusCode == StatusOK && call.value.payload.Some?
    ensures r.Return? ==> (call.value.payload.value.None? ==> r.value == [])
    ensures r.Return? ==> (call.value.payload.value.Some? ==> r.value == call.value.payload.value.value)
    ensures call.Ok? && call.value.statusCode == StatusNotFound ==> r.Fail? && Is(r.err, ClusterNotFound)
  {
    match call
    case Err(e) => Fail(Wrapped(e, "failed to call API to get cluster user"))
    case Ok(res) =>
      if res.statusCode == StatusNotFound then Fail(Wrapped(Sentinel(ClusterNotFound), "cluster " + Text.Decimal(id) + " not found"))
      else if ExpectWithBody(res, StatusOK).Some? then Fail(ExpectWithBody(res, StatusOK).value)
      else match res.payload
        case None => Panic(NilDereference)
        case Some(None) => Return([])
        case Some(Some(users)) => Return(users)
  }

  /** CreateCluserUser: 404 is ErrClusterNotFound, 200 gives the payload. */
  function CreateCluserUser(tenantId: nat, call: Call<DBUser>): (r: Result<Option<DBUser>, Error>)
    ensures r.Ok? <==> call.Ok? && call.value.statusCode == StatusOK
    ensures r.Ok? ==> r.value == call.value.payload
    ensures call.Ok? && call.value.statusCode == StatusNotFound ==> r.Err? && Is(r.error, ClusterNotFound)
  {
    match call
    case Err(e) => Err(Wrapped(e, "failed to call API to create cluster user"))
    case Ok(res) =>
      if res.statusCode == StatusNotFound then Err(Wrapped(Sentinel(ClusterNotFound), "cluster " + Text.Decimal(tenantId) + " not found"))
      else match ExpectWithBody(res, StatusOK)
        case Some(e) => Err(e)
        case None => Ok(res.payload)
  }

  /** UpdateClusterUserPassword: nil exactly on 200; a 404 is an ordinary mismatch here. */
  function UpdateClusterUserPassword(call: Call<()>): (r: Option<Error>)
    ensures r.None? <==> call.Ok? && call.value.statusCode == StatusOK
    ensures call.Ok? ==> forall k :: r.Some? ==> !Is(r.value, k)
  {
    match call
    case Err(e) => Some(Wrapped(e, "failed to call API to update cluster user password"))
    case Ok(res) => ExpectWithBody(res, StatusOK)
  }

  /** DeleteClusterUser: nil on 200 and on 404 (already gone). */
  function DeleteClusterUser(call: Call<()>): (r: Option<Error>)
    ensures r.None? <==> call.Ok? && (call.value.statusCode == StatusOK || call.value.statusCode == StatusNotFound)
  {
    match call
    case Err(e) => Some(Wrapped(e, "failed to call API to delete cluster user"))
    case Ok(res) =>
      if res.statusCode == StatusNotFound then None
      else ExpectWithBody(res, StatusOK)
  }

  /** GetPrivateLink: 404 is the bare ErrPrivateLinkNotFound, 200 gives the payload. */
  function GetPrivateLink(call: Call<PrivateLink>): (r: Result<Option<PrivateLink>, Error>)
    ensures r.Ok? <==> call.Ok? && call.value.statusCode == StatusOK
    ensures r.Ok? ==> r.value == call.value.payload
    ensures call.Ok? && call.value.statusCode == StatusNotFound ==> r == Err(Sentinel(PrivateLinkNotFound))
    ensures call.Ok? && call.value.statusCode != StatusNotFound && r.Err? ==> !Is(r.error, PrivateLinkNotFound)
  {
    match call
    case Err(e) => Err(Wrapped(e, "failed to call API to get private link"))
    case Ok(res) =>
      if res.statusCode == StatusNotFound then Err(Sentinel(PrivateLinkNotFound))
      else match ExpectWithBody(res, StatusOK)
        case Some(e) => Err(e)
        case None => Ok(res.payload)
  }

  /** The first half of CreatePrivateLinkAwait and DeletePrivateLinkAwait: the request itself. */
  function SendLinkRequest<T>(call: Call<T>, context: string): (r: Option<Error>)
    ensures r.None? <==> call.Ok? && call.value.statusCode == StatusAccepted
  {
    match call
    case Err(e) => Some(Wrapped(e, context))
    case Ok(res) => ExpectWithBody(res, StatusAccepted)
  }

  /** The private-link creation wait's state: the last link seen, if any. */
  datatype LinkTick = LinkTick(decision: Outcome<bool>, last: Option<PrivateLink>)

  /**
   * One tick of the creation wait: not-found keeps waiting, any other error
   * fails, a link is remembered and ends the wait once its status is
   * CREATED; a nil link from a 200 is dereferenced.
   */
  function CreateLinkTick(last: Option<PrivateLink>, got: Result<Option<PrivateLink>, Error>): (r: LinkTick)
    ensures got.Err? && Is(got.error, PrivateLinkNotFound) ==> r == LinkTick(Return(false), last)
    ensures got.Err? && !Is(got.error, PrivateLinkNotFound) ==> r == LinkTick(Fail(got.error), last)
    ensures r.decision == Return(true) <==> got.Ok? && got.value.Some? && got.value.value.status == Created
    ensures got.Ok? && got.value.Some? ==> r.last == got.value
  {
    match got
    case Err(e) => if Is(e, PrivateLinkNotFound) then LinkTick(Return(false), last) else LinkTick(Fail(e), last)
    case Ok(None) => LinkTick(Panic(NilDereference), None)
    case Ok(Some(link)) => LinkTick(Return(link.status == Created), Some(link))
  }

  /** How CreatePrivateLinkAwait ends: the link last seen, or the wait's error naming its last status ("<nil>" if none). */
  function CreateLinkResult(wait: Option<Error>, last: Option<PrivateLink>): (r: Result<Option<PrivateLink>, Error>)
    ensures r.Ok? <==> wait.None?
    ensures r.Ok? ==> r.value == last
    ensures r.Err? ==> r.error.Wrapped? && r.error.cause == wait.value
    ensures r.Err? && last.None? ==> r.error.context == "failed to wait for the private link to be created, last status is <nil>"
    ensures r.Err? && last.Some? ==> r.error.context == "failed to wait for the private link to be created, last status is " + last.value.status
  {
    if wait.Some? then
      var lastStatus := if last.Some? then last.value.status else "<nil>";
      Err(Wrapped(wait.value, "failed to wait for the private link to be created, last status is " + lastStatus))
    else Ok(last)
  }

  /**
   * One tick of the deletion wait: not-found ends it, any other error
   * fails, and a link still present keeps waiting.
   */
  function DeleteLinkTick(got: Result<Option<PrivateLink>, Error>): (r: Outcome<bool>)
    ensures r == Return(true) <==> got.Err? && Is(got.error, PrivateLinkNotFound)
    ensures r == Return(false) <==> got.Ok?
    ensures r.Fail? <==> got.Err? && !Is(got.error, PrivateLinkNotFound)
  {
    match got
    case Err(e) => if Is(e, PrivateLinkNotFound) then Return(true) else Fail(e)
    case Ok(_) => Return(false)
  }

  /**
   * DeletePrivateLinkAwait: a 404 from the DELETE is success with no wait;
   * otherwise 202 is required and the wait's outcome is returned.
   */
  function DeletePrivateLinkAwait(delete: Call<()>, wait: Option<Error>): (r: Trace<Option<Error>>)
    ensures delete.Ok? && delete.value.statusCode == StatusNotFound ==> r == Trace([Send], None)
    ensures WaitRunning in r.stages <==> delete.Ok? && delete.value.statusCode == StatusAccepted
    ensures r.result.None? <==> delete.Ok? && (delete.value.statusCode == StatusNotFound || (delete.value.statusCode == StatusAccepted && wait.None?))
  {
    match delete
    case Err(e) => Trace([Send], Some(Wrapped(e, "failed to call API to delete private link")))
    case Ok(res) =>
      if res.statusCode == StatusNotFound then Trace([Send], None)
      else if ExpectWithBody(res, StatusAccepted).Some? then Trace([Send], ExpectWithBody(res, StatusAccepted))
      else Trace([Send, WaitRunning], wait)
  }

  /** The creation and deletion waits read the same lookup in opposite ways. */
  lemma LinkTicksMirror(last: Option<PrivateLink>, got: Result<Option<PrivateLink>, Error>)
    requires got.Ok? ==> got.value.Some?
    ensures DeleteLinkTick(got) == Return(true) <==> CreateLinkTick(last, got).decision == Return(false) && got.Err?
  {
  }
}
