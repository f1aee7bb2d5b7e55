/**
 * pkg/cloudsdk/region.go: the older, exported region service client. It
 * follows internal/cloudsdk/region.go closely but builds its mismatch
 * errors with the one-code helper of pkg/cloudsdk/apigen, compares the
 * not-found sentinel by identity, waits only for Running, and offers five
 * component kinds, the etcd one read from AvailableEtcdNodes. Each
 * request's outcome is a parameter; a wait is its final error.
 */
module PkgRegion {
  import opened Wrappers
  import opened GoErrors
  import opened Mgmt
  import PkgApigen
  import InternalRegion

  const ComponentCompute := "compute"
  const ComponentCompactor := "compactor"
  const ComponentFrontend := "frontend"
  const ComponentMeta := "meta"
  const ComponentEtcd := "etcd"

  const StatusOK := 200
  const StatusAccepted := 202
  const StatusNotFound := 404

  /** apigen.ExpectStatusCodeWithMessage(res, code): the bare mismatch error, or nil. */
  function Expect<T>(res: Response<T>, code: int): (r: Option<Error>)
    ensures r.None? <==> res.statusCode == code
    ensures r.Some? ==> r.value.Plain?
  {
    PkgApigen.ExpectStatusCodeWithMessage(PkgApigen.SpecResponse("", res.statusCode), code)
  }

  /** errors.Wrapf(err, "message %s", string(res.Body)) around the mismatch error. */
  function ExpectWithBody<T>(res: Response<T>, code: int): (r: Option<Error>)
    ensures r.None? <==> res.statusCode == code
    ensures r.Some? ==> r.value == Wrapped(Expect(res, code).value, "message " + res.body)
  {
    match Expect(res, code)
    case None => None
    case Some(e) => Some(Wrapped(e, "message " + res.body))
  }

  /**
   * getClusterByName: a transport error is wrapped, 404 is the bare
   * ErrClusterNotFound, any other code but 200 is the bare mismatch error,
   * and 200 gives the payload (possibly nil).
   */
  function GetClusterByName(call: Call<Tenant>): (r: Result<Option<Tenant>, Error>)
    ensures r.Ok? <==> call.Ok? && call.value.statusCode == StatusOK
    ensures r.Ok? ==> r.value == call.value.payload
    ensures call.Err? ==> r == Err(Wrapped(call.error, "failed call API to to get cluster"))
    ensures call.Ok? && call.value.statusCode == StatusNotFound ==> r == Err(Sentinel(PkgClusterNotFound))
    ensures call.Ok? && call.value.statusCode != StatusNotFound && r.Err? ==> r.error.Plain?
  {
    match call
    case Err(e) => Err(Wrapped(e, "failed call API to to get cluster"))
    case Ok(res) =>
      if res.statusCode == StatusNotFound then Err(Sentinel(PkgClusterNotFound))
      else match Expect(res, StatusOK)
        case Some(e) => Err(e)
        case None => Ok(res.payload)
  }

  /** GetClusterByID: as getClusterByName, but the mismatch error carries the response body. */
  function GetClusterByID(call: Call<Tenant>): (r: Result<Option<Tenant>, Error>)
    ensures r.Ok? <==> call.Ok? && call.value.statusCode == StatusOK
    ensures r.Ok? ==> r.value == call.value.payload
    ensures call.Err? ==> r == Err(Wrapped(call.error, "failed call API to to get cluster"))
    ensures call.Ok? && call.value.statusCode == StatusNotFound ==> r == Err(Sentinel(PkgClusterNotFound))
    ensures call.Ok? && call.value.statusCode != StatusNotFound && r.Err? ==>
      r.error == Wrapped(Expect(call.value, StatusOK).value, "message " + call.value.body)
  {
    match call
    case Err(e) => Err(Wrapped(e, "failed call API to to get cluster"))
    case Ok(res) =>
      if res.statusCode == StatusNotFound then Err(Sentinel(PkgClusterNotFound))
      else match ExpectWithBody(res, StatusOK)
        case Some(e) => Err(e)
        case None => Ok(res.payload)
  }

  /** The two lookups differ only in what a status mismatch looks like. */
  lemma LookupsAgreeButOnMismatch(call: Call<Tenant>)
    ensures GetClusterByName(call).Ok? <==> GetClusterByID(call).Ok?
    ensures GetClusterByName(call).Ok? ==> GetClusterByName(call) == GetClusterByID(call)
    ensures (call.Err? || call.value.statusCode == StatusNotFound) ==> GetClusterByName(call) == GetClusterByID(call)
    ensures call.Ok? && call.value.statusCode !in {StatusOK, StatusNotFound} ==>
      GetClusterByID(call).error == Wrapped(GetClusterByName(call).error, "message " + call.value.body)
  {
  }

  /**
   * IsTenantNameExist: the lookup's error is compared with ErrClusterNotFound
   * by identity (==), so only the bare sentinel means "free"; any other
   * error is wrapped.
   */
  function IsTenantNameExist(call: Call<Tenant>): (r: Result<bool, Error>)
    ensures r == Ok(true) <==> GetClusterByName(call).Ok?
    ensures r == Ok(false) <==> GetClusterByName(call) == Err(Sentinel(PkgClusterNotFound))
    ensures r.Err? ==> r.error == Wrapped(GetClusterByName(call).error, "failed to get cluster info")
  {
    match GetClusterByName(call)
    case Ok(_) => Ok(true)
    case Err(e) => if e == Sentinel(PkgClusterNotFound) then Ok(false) else Err(Wrapped(e, "failed to get cluster info"))
  }

  /** The answer by status code: 404 is free, 200 is taken, anything else and any transport error is an error. */
  lemma IsTenantNameExistByStatus(call: Call<Tenant>)
    ensures IsTenantNameExist(call) == Ok(false) <==> call.Ok? && call.value.statusCode == StatusNotFound
    ensures IsTenantNameExist(call) == Ok(true) <==> call.Ok? && call.value.statusCode == StatusOK
    ensures IsTenantNameExist(call).Err? <==> call.Err? || call.value.statusCode !in {StatusOK, StatusNotFound}
  {
  }

  /**
   * The identity comparison does not look through wrappers: a wrapped
   * ErrClusterNotFound still answers errors.Is but is not the sentinel.
   */
  lemma WrappedSentinelIsNotIdentical(ctx: string)
    ensures Is(Wrapped(Sentinel(PkgClusterNotFound), ctx), PkgClusterNotFound)
    ensures Wrapped(Sentinel(PkgClusterNotFound), ctx) != Sentinel(PkgClusterNotFound)
  {
  }

  /** One tick of waitClusterByID: the status check of the internal client, on GetClusterByID. */
  function WaitByIDTick(call: Call<Tenant>, target: string): (r: Outcome<bool>)
    ensures r == Return(true) <==> (call.Ok? && call.value.statusCode == StatusOK
      && call.value.payload.Some? && call.value.payload.value.status == target)
    ensures r.Panic? <==> call.Ok? && call.value.statusCode == StatusOK && call.value.payload.None?
    ensures GetClusterByID(call).Err? ==> r == Fail(Wrapped(GetClusterByID(call).error, "failed to get the cluster info"))
  {
    InternalRegion.StatusTick(GetClusterByID(call), target)
  }

  /** One tick of waitClusterByName: the same check, on getClusterByName. */
  function WaitByNameTick(call: Call<Tenant>, target: string): (r: Outcome<bool>)
    ensures r == Return(true) <==> (call.Ok? && call.value.statusCode == StatusOK
      && call.value.payload.Some? && call.value.payload.value.status == target)
    ensures r.Panic? <==> call.Ok? && call.value.statusCode == StatusOK && call.value.payload.None?
    ensures GetClusterByName(call).Err? ==> r == Fail(Wrapped(GetClusterByName(call).error, "failed to get the cluster info"))
  {
    InternalRegion.StatusTick(GetClusterByName(call), target)
  }

  /** The two ticks decide alike; only their error texts can differ. */
  lemma WaitTicksAgree(call: Call<Tenant>, target: string)
    ensures WaitByIDTick(call, target).Return? <==> WaitByNameTick(call, target).Return?
    ensures WaitByIDTick(call, target).Return? ==> WaitByIDTick(call, target) == WaitByNameTick(call, target)
    ensures WaitByIDTick(call, target).Panic? <==> WaitByNameTick(call, target).Panic?
  {
    LookupsAgreeButOnMismatch(call);
  }

  /**
   * CreateClusterAwait: the POST must answer 202; then the cluster is awaited
   * Running by name and read back by name. The first failure ends the
   * sequence, and a failed read-back is wrapped.
   */
  function CreateClusterAwait(create: Call<Tenant>, waitRunning: Option<Error>, reread: Call<Tenant>): (r: InternalRegion.Trace<Result<Option<Tenant>, Error>>)
    ensures r.result.Ok? <==> (create.Ok? && create.value.statusCode == StatusAccepted
                               && waitRunning.None? && GetClusterByName(reread).Ok?)
    ensures r.result.Ok? ==> r.result.value == reread.value.payload
    ensures !(create.Ok? && create.value.statusCode == StatusAccepted) ==> r.stages == [InternalRegion.Send] && r.result.Err?
    ensures create.Ok? && create.value.statusCode == StatusAccepted && waitRunning.Some? ==>
      r == InternalRegion.Trace([InternalRegion.Send, InternalRegion.WaitRunning], Err(waitRunning.value))
    ensures InternalRegion.WaitHealthy !in r.stages
    ensures 1 <= |r.stages| <= 3 && r.stages == [InternalRegion.Send, InternalRegion.WaitRunning, InternalRegion.Reread][..|r.stages|]
  {
    match create
    case Err(e) => InternalRegion.Trace([InternalRegion.Send], Err(Wrapped(e, "failed call API to to create cluster")))
    case Ok(res) =>
      if ExpectWithBody(res, StatusAccepted).Some? then InternalRegion.Trace([InternalRegion.Send], Err(ExpectWithBody(res, StatusAccepted).value))
      else if waitRunning.Some? then InternalRegion.Trace([InternalRegion.Send, InternalRegion.WaitRunning], Err(waitRunning.value))
      else match GetClusterByName(reread)
        case Err(e) => InternalRegion.Trace([InternalRegion.Send, InternalRegion.WaitRunning, InternalRegion.Reread], Err(Wrapped(e, "failed to get cluster info")))
        case Ok(t) => InternalRegion.Trace([InternalRegion.Send, InternalRegion.WaitRunning, InternalRegion.Reread], Ok(t))
  }

  /**
   * DeleteClusterAwait: a 404 from the DELETE is success with no wait; any
   * other code but 202 is an error carrying the body; after a 202 the wait's
   * own outcome is returned. Its tick is InternalRegion.DeleteTick, whose
   * texts are the same in both packages.
   */
  function DeleteClusterAwait(delete: Call<()>, wait: Option<Error>): (r: InternalRegion.Trace<Option<Error>>)
    ensures delete.Ok? && delete.value.statusCode == StatusNotFound ==> r == InternalRegion.Trace([InternalRegion.Send], None)
    ensures InternalRegion.WaitRunning in r.stages <==> delete.Ok? && delete.value.statusCode == StatusAccepted
    ensures r.result.None? <==> delete.Ok? && (delete.value.statusCode == StatusNotFound || (delete.value.statusCode == StatusAccepted && wait.None?))
    ensures delete.Ok? && delete.value.statusCode == StatusAccepted ==> r.result == wait
  {
    match delete
    case Err(e) => InternalRegion.Trace([InternalRegion.Send], Some(Wrapped(e, "failed call API to to delete cluster")))
    case Ok(res) =>
      if res.statusCode == StatusNotFound then InternalRegion.Trace([InternalRegion.Send], None)
      else if ExpectWithBody(res, StatusAccepted).Some? then InternalRegion.Trace([InternalRegion.Send], ExpectWithBody(res, StatusAccepted))
      else InternalRegion.Trace([InternalRegion.Send, InternalRegion.WaitRunning], wait)
  }

  /**
   * The four Update…Await methods: read the cluster by ID (a nil tenant is
   * dereferenced when its ID is taken), send the update, require 202, then
   * wait for Running. The transport-error texts are those of the internal
   * client, typos included.
   */
  function UpdateAwait(kind: InternalRegion.UpdateKind, get: Call<Tenant>, post: Call<()>, wait: Option<Error>): (r: Outcome<()>)
    ensures r.Return? <==> (GetClusterByID(get).Ok? && GetClusterByID(get).value.Some?
      && post.Ok? && post.value.statusCode == StatusAccepted && wait.None?)
    ensures r.Panic? <==> get.Ok? && get.value.statusCode == StatusOK && get.value.payload.None?
    ensures GetClusterByID(get).Err? ==> r == Fail(Wrapped(GetClusterByID(get).error, "failed to get cluster info"))
    ensures GetClusterByID(get).Ok? && GetClusterByID(get).value.Some? && post.Err? ==>
      r == Fail(Wrapped(post.error, InternalRegion.UpdateContext(kind)))
  {
    match GetClusterByID(get)
    case Err(e) => Fail(Wrapped(e, "failed to get cluster info"))
    case Ok(None) => Panic(NilDereference)
    case Ok(Some(_)) =>
      match post
      case Err(e) => Fail(Wrapped(e, InternalRegion.UpdateContext(kind)))
      case Ok(res) =>
        if ExpectWithBody(res, StatusAccepted).Some? then Fail(ExpectWithBody(res, StatusAccepted).value)
        else if wait.Some? then Fail(wait.value)
        else Return(())
  }

  /** GetTiers: 200 required, with the body's text on a mismatch; the tier list is read through the payload pointer. */
  function GetTiers(call: Call<seq<Tier>>): (r: Outcome<seq<Tier>>)
    ensures r.Return? <==> call.Ok? && call.value.statusCode == StatusOK && call.value.payload.Some?
    ensures r.Return? ==> r.value == call.value.payload.value
    ensures r.Panic? <==> call.Ok? && call.value.statusCode == StatusOK && call.value.payload.None?
    ensures call.Ok? && call.value.statusCode != StatusOK ==> r == Fail(ExpectWithBody(call.value, StatusOK).value)
  {
    match call
    case Err(e) => Fail(Wrapped(e, "failed to call API to retrieve information of all tiers"))
    case Ok(res) =>
      if ExpectWithBody(res, StatusOK).Some? then Fail(ExpectWithBody(res, StatusOK).value)
      else if res.payload.None? then Panic(NilDereference)
      else Return(res.payload.value)
  }

  /** The list a tier offers for one of the five component names; etcd reads AvailableEtcdNodes. */
  function ComponentList(tier: Tier, component: string): (r: Option<seq<AvailableComponentType>>)
    ensures r.Some? <==> component in {ComponentCompute, ComponentCompactor, ComponentFrontend, ComponentMeta, ComponentEtcd}
    ensures component == ComponentEtcd ==> r == Some(tier.availableEtcdNodes)
  {
    if component == ComponentCompute then Some(tier.availableComputeNodes)
    else if component == ComponentCompactor then Some(tier.availableCompactorNodes)
    else if component == ComponentFrontend then Some(tier.availableFrontendNodes)
    else if component == ComponentMeta then Some(tier.availableMetaNodes)
    else if component == ComponentEtcd then Some(tier.availableEtcdNodes)
    else None
  }

  /**
   * Against the internal client: the four node kinds agree, etcd reads a
   * different list, and "postgresql" is unknown here.
   */
  lemma ComponentListAgainstInternal(tier: Tier, component: string)
    ensures component in {ComponentCompute, ComponentCompactor, ComponentFrontend, ComponentMeta} ==>
      ComponentList(tier, component) == InternalRegion.ComponentList(tier, component)
    ensures component == ComponentEtcd ==>
      (ComponentList(tier, component) == InternalRegion.ComponentList(tier, component) <==> tier.availableEtcdNodes == tier.metaStoreEtcdNodes)
    ensures component == InternalRegion.ComponentPostgresql ==>
      ComponentList(tier, component).None? && InternalRegion.ComponentList(tier, component).Some?
  {
  }

  /**
   * GetAvailableComponentTypes: the first tier whose Id equals the target,
   * else "tier … not found"; then one of five component lists, else
   * "component … not found".
   */
  function GetAvailableComponentTypes(tiers: Outcome<seq<Tier>>, targetTier: string, component: string): (r: Outcome<seq<AvailableComponentType>>)
    ensures tiers.Fail? ==> r == Fail(tiers.err)
    ensures tiers.Panic? ==> r.Panic?
    ensures tiers.Return? && InternalRegion.FirstTier(tiers.value, targetTier).None? ==> r == Fail(Plain("tier " + targetTier + " not found"))
    ensures tiers.Return? && InternalRegion.FirstTier(tiers.value, targetTier).Some? ==>
      var t := tiers.value[InternalRegion.FirstTier(tiers.value, targetTier).value];
      (ComponentList(t, component).None? ==> r == Fail(Plain("component " + component + " not found")))
      && (ComponentList(t, component).Some? ==> r == Return(ComponentList(t, component).value))
  {
    match tiers
    case Fail(e) => Fail(e)
    case Panic(p) => Panic(p)
    case Return(ts) =>
      match InternalRegion.FirstTier(ts, targetTier)
      case None => Fail(Plain("tier " + targetTier + " not found"))
      case Some(i) =>
        match ComponentList(ts[i], component)
        case None => Fail(Plain("component " + component + " not found"))
        case Some(l) => Return(l)
  }
}
