/**
 * internal/provider/cluster.go: the older variant of the cluster resource,
 * which addresses a cluster by platform, region and name through a
 * per-region client of pkg/cloudsdk, and identifies it by a numeric ID.
 * Its conversion and update checks differ from resource_cluster.go in
 * several places, all kept here as written: meta's resource goes nowhere,
 * the etcd configuration is never read from the plan, the etcd immutability
 * check and the etcd-configuration update condition are inverted.
 */
module LegacyCluster {
  import opened Wrappers
  import opened GoErrors
  import opened Tf
  import opened Framework
  import opened ClusterSpec
  import Text
  import Mgmt

  const DefaultEnableComputeFileCache := true
  const DefaultComputeFileCacheSizeGB := 20
  const DefaultEtcdVolumeSizeGB := 20
  const DefaultTier := Mgmt.Standard

  const Two63: int := 0x8000_0000_0000_0000
  const Two64: int := 0x1_0000_0000_0000_0000

  predicate IsInt64(v: int)
  {
    -Two63 <= v < Two63
  }

  /** Go's uint64(v) for an int64 v: negative values wrap by 2^64. */
  function ToUint64(v: int): (r: nat)
    ensures r < Two64
    ensures IsInt64(v) && v >= 0 ==> r == v
    ensures IsInt64(v) && v < 0 ==> r == v + Two64
  {
    v % Two64
  }

  /** Go's int64(x) for a uint64 x: values from 2^63 up wrap to negatives. */
  function ToInt64(x: nat): (r: int)
    ensures IsInt64(r)
    ensures x < Two63 ==> r == x
    ensures Two63 <= x < Two64 ==> r == x - Two64
  {
    var w := x % Two64;
    if w >= Two63 then w - Two64 else w
  }

  /** The two conversions undo each other on every int64. */
  lemma Int64RoundTrip(v: int)
    requires IsInt64(v)
    ensures ToInt64(ToUint64(v)) == v
  {
  }

  /** ClusterModel of cluster.go. */
  datatype ClusterModel = ClusterModel(
    platform: Value<string>,
    region: Value<string>,
    id: Value<int>,
    name: Value<string>,
    version: Value<string>,
    spec: Value<ClusterSpecModel>)

  /** The client calls: the region lookup, then region-client calls. */
  datatype Call =
    | RegionClient(platform: string, region: string)
    | CreateAwait(req: Mgmt.TenantRequest)
    | GetByName(name: string)
    | GetByID(id: nat)
    | UpdateImage(name: string, tag: string)
    | UpdateRwConfig(id: nat, config: string)
    | UpdateEtcdConfig(id: nat, config: string)
    | UpdateResources(name: string, body: Mgmt.PostTenantResourcesRequestBody)
    | DeleteAwait(name: string)

  type ClusterRun = Run<Call, ClusterModel>

  /**
   * dataModelToCluster of cluster.go. meta.resource is decoded into the
   * etcd slot, which the etcd store's resource then overwrites; the meta
   * slot itself is never filled, so Meta is always the zero component. The
   * etcd configuration is not assigned: the tenant keeps the one it had.
   */
  function ToCluster(data: ClusterModel, cluster: Mgmt.Tenant): (r: Conversion)
    ensures EtcdStoreMissing(data) ==> r == Conversion([MissingMetaStore], cluster)
    ensures r.diags == [] <==> !EtcdStoreMissing(data)
    ensures r.tenant.etcdConfig == cluster.etcdConfig
    ensures r.diags == [] ==>
      r.tenant.id == ToUint64(ValueInt64(data.id)) && r.tenant.tenantName == ValueString(data.name)
      && r.tenant.imageTag == ValueString(data.version) && r.tenant.tier == DefaultTier
      && r.tenant.region == ValueString(data.region)
      && r.tenant.resources.components.meta == Some(Mgmt.ZeroComponentResource)
      && r.tenant.resources.components.etcd == ToComponent(As(EtcdStoreOf(data.spec).resource, EmptyResource))
      && r.tenant.resources.computeFileCacheSizeGiB == DefaultComputeFileCacheSizeGB
      && r.tenant.resources.enableComputeFileCache == DefaultEnableComputeFileCache
      && r.tenant.resources.etcdVolumeSizeGiB == DefaultEtcdVolumeSizeGB
      && HasComponents(r.tenant)
  {
    if EtcdStoreMissing(data) then Conversion([MissingMetaStore], cluster)
    else
      var spec := As(data.spec, EmptySpec);
      var etcdResource := As(EtcdStoreOf(data.spec).resource, EmptyResource);
      Conversion([], cluster.(
        id := ToUint64(ValueInt64(data.id)),
        tenantName := ValueString(data.name),
        imageTag := ValueString(data.version),
        tier := DefaultTier,
        rwConfig := ValueString(spec.risingwaveConfig),
        region := ValueString(data.region),
        resources := Mgmt.TenantResource(
          Mgmt.TenantResourceComponents(
            Some(ToComponent(ComponentResourceOf(spec.compute))),
            Some(ToComponent(ComponentResourceOf(spec.compactor))),
            Some(ToComponent(ComponentResourceOf(spec.frontend))),
            Some(ToComponent(EmptyResource)),
            ToComponent(etcdResource)),
          DefaultComputeFileCacheSizeGB, DefaultEnableComputeFileCache, DefaultEtcdVolumeSizeGB, 0, None)))
  }

  predicate EtcdStoreMissing(data: ClusterModel)
  {
    MetaSpecOf(data.spec).etcdMetaStore.Null?
  }

  /**
   * clusterToDataModel of cluster.go: platform and region stay; the ID is
   * int64(Id); the etcd store's etcd_config is written from the tenant's
   * RisingWave configuration. A nil component pointer is dereferenced (None).
   */
  function FromCluster(t: Mgmt.Tenant, data: ClusterModel): (r: Option<ClusterModel>)
    ensures r.Some? <==> HasComponents(t)
    ensures r.Some? ==> r.value.platform == data.platform && r.value.region == data.region
    ensures r.Some? ==> r.value.id == Known(ToInt64(t.id)) && r.value.name == Known(t.tenantName)
    ensures r.Some? ==> EtcdStoreOf(r.value.spec).etcdConfig == Known(t.rwConfig)
  {
    if !HasComponents(t) then None
    else
      var c := t.resources.components;
      var meta := MetaSpecModel(
        Known(FromComponent(c.meta.value)),
        Known(EtcdMetaStoreModel(Known(FromComponent(c.etcd)), Known(t.rwConfig))));
      Some(ClusterModel(
        data.platform,
        data.region,
        Known(ToInt64(t.id)),
        Known(t.tenantName),
        Known(t.imageTag),
        Known(ClusterSpecModel(
          ComponentSpecOf(c.compute.value),
          ComponentSpecOf(c.compactor.value),
          ComponentSpecOf(c.frontend.value),
          Known(meta),
          Known(t.rwConfig)))))
  }

  /** Two optional components name the same type with the same replica count. */
  predicate SamePair(a: Option<Mgmt.ComponentResource>, b: Option<Mgmt.ComponentResource>)
  {
    a.Some? && b.Some? && a.value.componentTypeId == b.value.componentTypeId && a.value.replica == b.value.replica
  }

  /**
   * Round trip through the model and back: the ID (below 2^64), name,
   * version, RisingWave configuration and the compute, compactor, frontend
   * and etcd pairs survive; the meta component is lost (zero), and the etcd
   * configuration is the target tenant's, not the original's.
   */
  lemma RoundTrip(t: Mgmt.Tenant, data: ClusterModel, cluster: Mgmt.Tenant)
    requires HasComponents(t) && t.id < Two64
    ensures var back := ToCluster(FromCluster(t, data).value, cluster);
      back.diags == []
      && back.tenant.id == t.id && back.tenant.tenantName == t.tenantName && back.tenant.imageTag == t.imageTag
      && back.tenant.rwConfig == t.rwConfig && back.tenant.etcdConfig == cluster.etcdConfig
      && SamePair(back.tenant.resources.components.compute, t.resources.components.compute)
      && SamePair(back.tenant.resources.components.compactor, t.resources.components.compactor)
      && SamePair(back.tenant.resources.components.frontend, t.resources.components.frontend)
      && back.tenant.resources.components.meta == Some(Mgmt.ZeroComponentResource)
      && back.tenant.resources.components.etcd.componentTypeId == t.resources.components.etcd.componentTypeId
      && back.tenant.resources.components.etcd.replica == t.resources.components.etcd.replica
  {
    var m := FromCluster(t, data).value;
    assert !EtcdStoreMissing(m);
    Int64RoundTrip(ToInt64(t.id));
  }

  /**
   * The create request: name and version straight from the plan, the rest
   * from the converted tenant; None when a component pointer is nil.
   */
  function CreateRequest(data: ClusterModel, cluster: Mgmt.Tenant): (r: Option<Mgmt.TenantRequest>)
    ensures r.Some? <==> HasComponents(cluster)
    ensures r.Some? ==> r.value.tenantName == ValueString(data.name) && r.value.imageTag == Some(ValueString(data.version))
    ensures r.Some? ==> r.value.etcdConfig == Some(cluster.etcdConfig) && r.value.tier == Some(DefaultTier)
  {
    if !HasComponents(cluster) then None
    else
      var c := cluster.resources.components;
      Some(Mgmt.TenantRequest(
        ValueString(data.name),
        Some(ValueString(data.version)),
        Some(cluster.rwConfig),
        Some(cluster.etcdConfig),
        Some(DefaultTier),
        None,
        Some(Mgmt.TenantResourceRequest(
          Mgmt.TenantResourceRequestComponents(
            Some(ComponentRequest(c.compute.value)), Some(ComponentRequest(c.compactor.value)),
            Some(ComponentRequest(c.frontend.value)), Some(ComponentRequest(c.meta.value)),
            ComponentRequest(c.etcd)),
          cluster.resources.computeFileCacheSizeGiB,
          cluster.resources.enableComputeFileCache,
          cluster.resources.etcdVolumeSizeGiB,
          Mgmt.TenantResourceRequestMetaStore("", None)))))
  }

  const NoRegionClient := "Failed to get region service client"

  /** The created cluster is converted back; a nil or incomplete answer is dereferenced. */
  function Created(plan: ClusterModel, calls: seq<Call>, created: Result<Option<Mgmt.Tenant>, Error>): (r: ClusterRun)
    ensures r.calls == calls
    ensures created.Err? ==> r == Stop(calls, AwaitFailure(created.error, "Unable to create cluster"))
    ensures r.write.Saved? <==> created.Ok? && created.value.Some? && HasComponents(created.value.value)
    ensures r.write.Saved? ==> r.write.model.id == Known(ToInt64(created.value.value.id))
    ensures r.write.Saved? ==> r.write.model == FromCluster(created.value.value, plan).value && r.diags == [] && r.panic.None?
  {
    match created
    case Err(e) => Stop(calls, AwaitFailure(e, "Unable to create cluster"))
    case Ok(None) => Crash(calls, NilDereference)
    case Ok(Some(t)) =>
      match FromCluster(t, plan)
      case None => Crash(calls, NilDereference)
      case Some(m) => Done(calls, Saved(m))
  }

  /**
   * Create: the conversion's diagnostics are dropped and the request is
   * built from the converted tenant before the region client is looked up;
   * the request's etcd configuration is the zero tenant's empty string.
   */
  function Create(plan: ClusterModel, service: Option<Error>, created: Result<Option<Mgmt.Tenant>, Error>): (r: ClusterRun)
    ensures EtcdStoreMissing(plan) ==> r == Crash([], NilDereference)
    ensures !EtcdStoreMissing(plan) ==>
      |r.calls| >= 1 && r.calls[0] == RegionClient(ValueString(plan.platform), ValueString(plan.region))
    ensures !EtcdStoreMissing(plan) && service.Some? ==>
      r == Stop([RegionClient(ValueString(plan.platform), ValueString(plan.region))], ErrorDiag(NoRegionClient, ErrorText(service.value)))
    ensures !EtcdStoreMissing(plan) && service.None? ==>
      var req := CreateRequest(plan, ToCluster(plan, Mgmt.ZeroTenant).tenant).value;
      req.etcdConfig == Some("")
      && r == Created(plan, [RegionClient(ValueString(plan.platform), ValueString(plan.region)), CreateAwait(req)], created)
  {
    var cluster := ToCluster(plan, Mgmt.ZeroTenant).tenant;
    match CreateRequest(plan, cluster)
    case None => Crash([], NilDereference)
    case Some(req) =>
      var calls := [RegionClient(ValueString(plan.platform), ValueString(plan.region))];
      match service
      case Some(e) => Stop(calls, ErrorDiag(NoRegionClient, ErrorText(e)))
      case None => Created(plan, calls + [CreateAwait(req)], created)
  }

  /**
   * Read: the cluster is looked up by name; every error is reported, a
   * cluster that no longer exists included, so the state is never removed.
   */
  function Read(state: ClusterModel, service: Option<Error>, got: Result<Option<Mgmt.Tenant>, Error>): (r: ClusterRun)
    ensures |r.calls| >= 1 && r.calls[0] == RegionClient(ValueString(state.platform), ValueString(state.region))
    ensures service.None? ==> r.calls == [RegionClient(ValueString(state.platform), ValueString(state.region)), GetByName(ValueString(state.name))]
    ensures !r.write.Removed?
    ensures service.Some? ==> r == Stop([RegionClient(ValueString(state.platform), ValueString(state.region))],
                                        ErrorDiag(NoRegionClient, ErrorText(service.value)))
    ensures service.None? && got.Err? ==> r.diags == [ErrorDiag("Unable to read cluster", ErrorText(got.error))] && r.write.Untouched?
    ensures service.None? && got == Ok(None) ==> r.panic == Some(NilDereference)
    ensures r.write.Saved? <==> service.None? && got.Ok? && got.value.Some? && FromCluster(got.value.value, state).Some?
    ensures r.write.Saved? ==> r.write.model == FromCluster(got.value.value, state).value && r.diags == [] && r.panic.None?
    ensures r.write.Saved? ==> r.write.model.platform == state.platform && r.write.model.region == state.region
    ensures service.None? && got.Ok? && got.value.Some? && FromCluster(got.value.value, state).None? ==>
      r.panic == Some(NilDereference)
  {
    var calls := [RegionClient(ValueString(state.platform), ValueString(state.region))];
    match service
    case Some(e) => Stop(calls, ErrorDiag(NoRegionClient, ErrorText(e)))
    case None =>
      var calls2 := calls + [GetByName(ValueString(state.name))];
      match got
      case Err(e) => Stop(calls2, ErrorDiag("Unable to read cluster", ErrorText(e)))
      case Ok(None) => Crash(calls2, NilDereference)
      case Ok(Some(t)) =>
        match FromCluster(t, state)
        case None => Crash(calls2, NilDereference)
        case Some(m) => Done(calls2, Saved(m))
  }

  /**
   * The immutable-field checks of cluster.go's Update. The etcd check
   * reports "Etcd resource cannot be changed" when the two etcd components
   * are deeply EQUAL, as written.
   */
  function ImmutableViolations(previous: Mgmt.Tenant, updated: Mgmt.Tenant): (ds: seq<Diagnostic>)
    ensures ds == [] <==>
      previous.resources.enableComputeFileCache == updated.resources.enableComputeFileCache
      && previous.resources.computeFileCacheSizeGiB == updated.resources.computeFileCacheSizeGiB
      && previous.resources.etcdVolumeSizeGiB == updated.resources.etcdVolumeSizeGiB
      && previous.tenantName == updated.tenantName
      && previous.resources.components.etcd != updated.resources.components.etcd
    ensures |ds| <= 5
    ensures previous.resources.components.etcd == updated.resources.components.etcd ==>
      ds[|ds| - 1] == ErrorDiag("Cannot update immutable field", "Etcd resource cannot be changed")
  {
    (if previous.resources.enableComputeFileCache != updated.resources.enableComputeFileCache
     then [ErrorDiag("Cannot update immutable field", "Compute file cache cannot be changed")] else [])
    + (if previous.resources.computeFileCacheSizeGiB != updated.resources.computeFileCacheSizeGiB
       then [ErrorDiag("Cannot update immutable field", "Compute file cache size cannot be changed")] else [])
    + (if previous.resources.etcdVolumeSizeGiB != updated.resources.etcdVolumeSizeGiB
       then [ErrorDiag("Cannot update updatete immutable field", "Etcd volume size cannot be changed")] else [])
    + (if previous.tenantName != updated.tenantName
       then [ErrorDiag("Cannot update immutable field", "Cluster name cannot be changed")] else [])
    + (if previous.resources.components.etcd == updated.resources.components.etcd
       then [ErrorDiag("Cannot update immutable field", "Etcd resource cannot be changed")] else [])
  }

  /**
   * The configuration updates, in order: the image by name and the
   * RisingWave configuration by ID when they differ, and the etcd
   * configuration by ID when the two are EQUAL, as written.
   */
  function ConfigSteps(previous: Mgmt.Tenant, updated: Mgmt.Tenant): (steps: seq<Call>)
    ensures UpdateImage(updated.tenantName, updated.imageTag) in steps <==> previous.imageTag != updated.imageTag
    ensures UpdateRwConfig(updated.id, updated.rwConfig) in steps <==> previous.rwConfig != updated.rwConfig
    ensures UpdateEtcdConfig(updated.id, updated.etcdConfig) in steps <==> previous.etcdConfig == updated.etcdConfig
    ensures |steps| <= 3
  {
    (if previous.imageTag != updated.imageTag then [UpdateImage(updated.tenantName, updated.imageTag)] else [])
    + (if previous.rwConfig != updated.rwConfig then [UpdateRwConfig(updated.id, updated.rwConfig)] else [])
    + (if previous.etcdConfig == updated.etcdConfig then [UpdateEtcdConfig(updated.id, updated.etcdConfig)] else [])
  }

  /** The summary a failed update reports; cluster.go's Update has no timeout summary. */
  function FailSummary(c: Call): string
  {
    match c
    case UpdateImage(_, _) => "Unable to update cluster version"
    case UpdateRwConfig(_, _) => "Unable to update cluster risingwave config"
    case UpdateEtcdConfig(_, _) => "Unable to update cluster etcd config"
    case _ => "Unable to update cluster resources"
  }

  /** Runs the update calls in order; the first failure stops the rest. */
  function Execute(steps: seq<Call>, answer: Call -> Option<Error>): (r: (seq<Call>, Option<Diagnostic>))
    ensures r.0 <= steps
    ensures forall i :: 0 <= i < |r.0| - 1 ==> answer(steps[i]).None?
    ensures r.1.None? <==> forall i :: 0 <= i < |steps| ==> answer(steps[i]).None?
    ensures r.1.None? ==> r.0 == steps
    ensures r.1.Some? ==>
      |r.0| > 0 && answer(steps[|r.0| - 1]).Some?
      && r.1.value == ErrorDiag(FailSummary(steps[|r.0| - 1]), ErrorText(answer(steps[|r.0| - 1]).value))
    decreases |steps|
  {
    if |steps| == 0 then ([], None)
    else
      match answer(steps[0])
      case Some(e) => ([steps[0]], Some(ErrorDiag(FailSummary(steps[0]), ErrorText(e))))
      case None =>
        var rest := Execute(steps[1..], answer);
        assert [steps[0]] + steps[1..] == steps;
        assert forall i :: 1 <= i < |steps| ==> steps[i] == steps[1..][i - 1];
        ([steps[0]] + rest.0, rest.1)
  }

  /**
   * The components check of cluster.go: reflect.DeepEqual on the four
   * pointers, which compares sizes as well and never dereferences nil; the
   * body dereferences the plan's pointers.
   */
  function ResourcesCall(previous: Mgmt.Tenant, updated: Mgmt.Tenant): (d: Option<Option<Call>>)
    ensures d == Some(None) <==>
      (previous.resources.components.compute == updated.resources.components.compute
       && previous.resources.components.compactor == updated.resources.components.compactor
       && previous.resources.components.frontend == updated.resources.components.frontend
       && previous.resources.components.meta == updated.resources.components.meta)
    ensures d.None? ==> !HasComponents(updated)
    ensures d.Some? && d.value.Some? ==> d.value.value.UpdateResources? && d.value.value.name == updated.tenantName
  {
    var p, u := previous.resources.components, updated.resources.components;
    if p.compute == u.compute && p.compactor == u.compactor && p.frontend == u.frontend && p.meta == u.meta then Some(None)
    else if !HasComponents(updated) then None
    else Some(Some(UpdateResources(updated.tenantName, Mgmt.PostTenantResourcesRequestBody(
      Some(ComponentRequest(u.compute.value)), Some(ComponentRequest(u.compactor.value)),
      Some(ComponentRequest(u.frontend.value)), Some(ComponentRequest(u.meta.value))))))
  }

  /** Update after the previous cluster has been read. */
  function UpdateRead(plan: ClusterModel, calls: seq<Call>, previous: Mgmt.Tenant, updated: Mgmt.Tenant,
                      answer: Call -> Option<Error>): (r: ClusterRun)
    ensures ImmutableViolations(previous, updated) != [] ==>
      r == Run(calls, ImmutableViolations(previous, updated), Untouched, None)
    ensures ImmutableViolations(previous, updated) == [] && Execute(ConfigSteps(previous, updated), answer).1.Some? ==>
      r == Stop(calls + Execute(ConfigSteps(previous, updated), answer).0, Execute(ConfigSteps(previous, updated), answer).1.value)
    ensures ImmutableViolations(previous, updated) == [] && Execute(ConfigSteps(previous, updated), answer).1.None?
            && ResourcesCall(previous, updated) == Some(None) ==>
      r == Done(calls + ConfigSteps(previous, updated), Saved(plan))
    ensures ImmutableViolations(previous, updated) == [] && Execute(ConfigSteps(previous, updated), answer).1.None?
            && ResourcesCall(previous, updated).Some? && ResourcesCall(previous, updated).value.Some? ==>
      r.calls == calls + ConfigSteps(previous, updated) + [ResourcesCall(previous, updated).value.value]
    ensures r.write.Saved? ==> r.write.model == plan && r.diags == []
  {
    var vs := ImmutableViolations(previous, updated);
    if vs != [] then Run(calls, vs, Untouched, None)
    else
      var run := Execute(ConfigSteps(previous, updated), answer);
      var sent := calls + run.0;
      if run.1.Some? then Stop(sent, run.1.value)
      else match ResourcesCall(previous, updated)
        case None => Crash(sent, NilDereference)
        case Some(None) => Done(sent, Saved(plan))
        case Some(Some(c)) =>
          match answer(c)
          case Some(e) => Stop(sent + [c], ErrorDiag(FailSummary(c), ErrorText(e)))
          case None => Done(sent + [c], Saved(plan))
  }

  /** The calls made before the cluster was read stay at the head of the list. */
  lemma UpdateReadExtends(plan: ClusterModel, calls: seq<Call>, previous: Mgmt.Tenant, updated: Mgmt.Tenant,
                          answer: Call -> Option<Error>)
    ensures var r := UpdateRead(plan, calls, previous, updated, answer);
      |r.calls| >= |calls| && r.calls[..|calls|] == calls
  {
    if ImmutableViolations(previous, updated) == [] {
      var run := Execute(ConfigSteps(previous, updated), answer);
      assert (calls + run.0)[..|calls|] == calls;
      var d := ResourcesCall(previous, updated);
      if d.Some? && d.value.Some? {
        assert (calls + run.0 + [d.value.value])[..|calls|] == calls;
      }
    }
  }

  /** Update once the region client is at hand: read the cluster by uint64(id), then check and apply. */
  function UpdateWithClient(plan: ClusterModel, calls: seq<Call>, previous: Result<Option<Mgmt.Tenant>, Error>,
                            answer: Call -> Option<Error>): (r: ClusterRun)
    ensures |r.calls| >= |calls| + 1 && r.calls[..|calls| + 1] == calls + [GetByID(ToUint64(ValueInt64(plan.id)))]
    ensures previous.Err? ==>
      r == Stop(calls + [GetByID(ToUint64(ValueInt64(plan.id)))], ErrorDiag("Unable to read cluster", ErrorText(previous.error)))
    ensures previous.Ok? && previous.value.Some? ==>
      r == UpdateRead(plan, calls + [GetByID(ToUint64(ValueInt64(plan.id)))], previous.value.value, ToCluster(plan, Mgmt.ZeroTenant).tenant, answer)
  {
    var calls2 := calls + [GetByID(ToUint64(ValueInt64(plan.id)))];
    match previous
    case Err(e) => Stop(calls2, ErrorDiag("Unable to read cluster", ErrorText(e)))
    case Ok(None) => Crash(calls2, NilDereference)
    case Ok(Some(p)) =>
      UpdateReadExtends(plan, calls2, p, ToCluster(plan, Mgmt.ZeroTenant).tenant, answer);
      UpdateRead(plan, calls2, p, ToCluster(plan, Mgmt.ZeroTenant).tenant, answer)
  }

  /**
   * Update of cluster.go: the plan is converted (diagnostics dropped), the
   * region client looked up, the cluster read by ID, then checked and applied.
   */
  function Update(plan: ClusterModel, service: Option<Error>, previous: Result<Option<Mgmt.Tenant>, Error>,
                  answer: Call -> Option<Error>): (r: ClusterRun)
    ensures service.Some? ==>
      r == Stop([RegionClient(ValueString(plan.platform), ValueString(plan.region))], ErrorDiag(NoRegionClient, ErrorText(service.value)))
    ensures service.None? ==>
      r == UpdateWithClient(plan, [RegionClient(ValueString(plan.platform), ValueString(plan.region))], previous, answer)
  {
    var calls := [RegionClient(ValueString(plan.platform), ValueString(plan.region))];
    match service
    case Some(e) => Stop(calls, ErrorDiag(NoRegionClient, ErrorText(e)))
    case None => UpdateWithClient(plan, calls, previous, answer)
  }

  /** Delete: by name through the region client, awaited. */
  function Delete(state: ClusterModel, service: Option<Error>, deleted: Option<Error>): (r: ClusterRun)
    ensures service.Some? ==> r.calls == [RegionClient(ValueString(state.platform), ValueString(state.region))]
    ensures service.None? ==> r.calls == [RegionClient(ValueString(state.platform), ValueString(state.region)), DeleteAwait(ValueString(state.name))]
    ensures service.None? && deleted.Some? ==> r.diags == [AwaitFailure(deleted.value, "Unable to delete cluster")]
    ensures r.diags == [] <==> service.None? && deleted.None?
  {
    var calls := [RegionClient(ValueString(state.platform), ValueString(state.region))];
    match service
    case Some(e) => Stop(calls, ErrorDiag(NoRegionClient, ErrorText(e)))
    case None =>
      match deleted
      case Some(e) => Stop(calls + [DeleteAwait(ValueString(state.name))], AwaitFailure(e, "Unable to delete cluster"))
      case None => Done(calls + [DeleteAwait(ValueString(state.name))], Untouched)
  }

  /** The three pieces of an import ID, when it has exactly three and none is empty. */
  predicate WellFormedImportId(parts: seq<string>)
  {
    |parts| == 3 && parts[0] != "" && parts[1] != "" && parts[2] != ""
  }

  /** The diagnostic for an import ID of the wrong shape, quoting the ID. */
  function ImportFailure(id: string): Diagnostic
  {
    ErrorDiag("Unexpected Import Identifier",
      "Expected import identifier with format: <platform>.<region>.<cluster_name>, for example: aws.us-east-2.mycluster. Got: " + Quote(id))
  }

  /** ImportState: "<platform>.<region>.<cluster_name>" sets the three attributes in order. */
  function ImportState(id: string): (r: ClusterRun)
    ensures r.calls == []
    ensures !WellFormedImportId(Text.Split(id, '.')) ==> r == Stop([], ImportFailure(id))
    ensures WellFormedImportId(Text.Split(id, '.')) ==>
      var parts := Text.Split(id, '.');
      r == Done([], Attributes([("platform", parts[0]), ("region", parts[1]), ("name", parts[2])]))
  {
    var parts := Text.Split(id, '.');
    if !WellFormedImportId(parts) then
      Stop([], ImportFailure(id))
    else Done([], Attributes([("platform", parts[0]), ("region", parts[1]), ("name", parts[2])]))
  }

  /** Non-empty, dot-free platform, region and name are imported as themselves. */
  lemma ImportIdentifier(platform: string, region: string, name: string)
    requires platform != "" && region != "" && name != ""
    requires '.' !in platform && '.' !in region && '.' !in name
    ensures ImportState(platform + "." + region + "." + name).write == Attributes([("platform", platform), ("region", region), ("name", name)])
  {
    var tail := region + "." + name;
    Text.SplitWithoutSeparator(name, '.');
    Text.SplitAfterPrefix(region, name, '.');
    assert Text.Split(tail, '.') == [region, name];
    Text.SplitAfterPrefix(platform, tail, '.');
    var id := platform + "." + region + "." + name;
    assert id == platform + ['.'] + tail;
    assert Text.Split(id, '.') == [platform, region, name];
  }

  /** An identifier whose name part holds a dot splits into at least four parts. */
  lemma DottedSplit(platform: string, region: string, name: string)
    requires '.' in name
    ensures |Text.Split(platform + "." + region + "." + name, '.')| >= 4
  {
    var front := platform + "." + region;
    var id := front + "." + name;
    assert id == front + ("." + name);
    assert front == platform + ("." + region);
    Text.CountConcat(front, "." + name, '.');
    Text.CountConcat(platform, "." + region, '.');
    Text.CountConcat(".", region, '.');
    Text.CountConcat(".", name, '.');
    assert Text.Count(".", '.') == 1;
    Text.CountPositive(name, '.');
    assert Text.Count(id, '.') >= 3;
    Text.SplitLength(id, '.');
  }

  /** A cluster name that contains a dot is never importable, whatever the platform and region. */
  lemma DottedNameNotImportable(platform: string, region: string, name: string)
    requires '.' in name
    ensures ImportState(platform + "." + region + "." + name).diags != []
  {
    DottedSplit(platform, region, name);
  }
}
