/**
 * internal/provider/resource_cluster.go: the risingwavecloud_cluster
 * resource, written against the client of pkg/cloudsdk that addresses a
 * cluster by its NsID. Every operation parses the NsID from
 * types.String.String(), the quoted text, and Create and Update ignore the
 * diagnostics of the model-to-tenant conversion. The SDK calls' answers
 * are parameters and the calls made are recorded in order.
 */
module ResourceCluster {
  import opened Wrappers
  import opened GoErrors
  import opened Tf
  import opened Framework
  import opened ClusterSpec
  import Uuid
  import Mgmt

  const DefaultEnableComputeFileCache := true
  const DefaultComputeFileCacheSizeGB := 20
  const DefaultEtcdVolumeSizeGB := 10
  /** DefaultTier of data_source_component_type.go, which this file shares. */
  const DefaultTier := Mgmt.Standard

  /** ClusterModel: the resource's top-level attributes. */
  datatype ClusterModel = ClusterModel(
    nsId: Value<string>,
    region: Value<string>,
    name: Value<string>,
    version: Value<string>,
    spec: Value<ClusterSpecModel>)

  /** One remote update Update may issue, each awaited. */
  datatype Step =
    | SetImage(tag: string)
    | SetRwConfig(config: string)
    | SetEtcdConfig(config: string)
    | SetResources(body: Mgmt.PostTenantResourcesRequestBody)

  /** The client calls the resource makes. */
  datatype Call =
    | NameExists(region: string, name: string)
    | CreateAwait(region: string, req: Mgmt.TenantRequest)
    | GetByNsID(nsID: Uuid.Uuid)
    | Apply(nsID: Uuid.Uuid, step: Step)
    | DeleteAwait(nsID: Uuid.Uuid)

  type ClusterRun = Run<Call, ClusterModel>

  /** The NsID as the operations read it: uuid.Parse of the quoted rendering. */
  function ParseNsId(nsId: Value<string>): Option<Uuid.Uuid>
  {
    Uuid.Parse(Render(nsId))
  }

  /** A known NsID written by the resource parses back; a null or unknown one never does. */
  lemma ParseNsIdKnown(u: Uuid.Uuid, nsId: Value<string>)
    ensures ParseNsId(Known(Uuid.ToString(u))) == Some(u)
    ensures !nsId.Known? ==> ParseNsId(nsId).None?
  {
    ParseRendered(Known(Uuid.ToString(u)), u);
    ParseRendered(nsId, u);
  }

  /**
   * The tenant the assignments of dataModelToCluster produce, once the
   * meta store and the NsID have been accepted: the plan's name, version,
   * configurations, region and five components, the Standard tier and the
   * three fixed resource defaults.
   */
  function Populate(data: ClusterModel, nsID: Uuid.Uuid, cluster: Mgmt.Tenant): (t: Mgmt.Tenant)
    ensures t.nsId == nsID && t.tenantName == ValueString(data.name) && t.imageTag == ValueString(data.version)
    ensures t.tier == DefaultTier && t.region == ValueString(data.region)
    ensures t.resources.computeFileCacheSizeGiB == DefaultComputeFileCacheSizeGB
    ensures t.resources.enableComputeFileCache == DefaultEnableComputeFileCache
    ensures t.resources.etcdVolumeSizeGiB == DefaultEtcdVolumeSizeGB
    ensures t.resources.components.compute.Some? && t.resources.components.compactor.Some?
    ensures t.resources.components.frontend.Some? && t.resources.components.meta.Some?
  {
    var spec := As(data.spec, EmptySpec);
    var meta := MetaSpecOf(data.spec);
    var etcd := EtcdStoreOf(data.spec);
    cluster.(
      nsId := nsID,
      tenantName := ValueString(data.name),
      imageTag := ValueString(data.version),
      tier := DefaultTier,
      rwConfig := ValueString(spec.risingwaveConfig),
      etcdConfig := ValueString(etcd.etcdConfig),
      region := ValueString(data.region),
      resources := Mgmt.TenantResource(
        Mgmt.TenantResourceComponents(
          Some(ToComponent(ComponentResourceOf(spec.compute))),
          Some(ToComponent(ComponentResourceOf(spec.compactor))),
          Some(ToComponent(ComponentResourceOf(spec.frontend))),
          Some(ToComponent(As(meta.resource, EmptyResource))),
          ToComponent(As(etcd.resource, EmptyResource))),
        DefaultComputeFileCacheSizeGB, DefaultEnableComputeFileCache, DefaultEtcdVolumeSizeGB, 0, None))
  }

  /**
   * dataModelToCluster: a null etcd_meta_store is reported as "Missing meta
   * store", and an NsID that does not parse as "Failed to parse nsid"; in
   * both cases the tenant is left as it came in.
   */
  function ToCluster(data: ClusterModel, cluster: Mgmt.Tenant): (r: Conversion)
    ensures MetaSpecOf(data.spec).etcdMetaStore.Null? ==> r == Conversion([MissingMetaStore], cluster)
    ensures !MetaSpecOf(data.spec).etcdMetaStore.Null? && ParseNsId(data.nsId).None? ==>
      r == Conversion([ErrorDiag("Failed to parse nsid", "Cannot parse cluster NsID " + Render(data.nsId))], cluster)
    ensures r.diags == [] <==> !MetaSpecOf(data.spec).etcdMetaStore.Null? && ParseNsId(data.nsId).Some?
    ensures r.diags == [] ==> r.tenant == Populate(data, ParseNsId(data.nsId).value, cluster)
  {
    if MetaSpecOf(data.spec).etcdMetaStore.Null? then Conversion([MissingMetaStore], cluster)
    else match ParseNsId(data.nsId)
      case None => Conversion([ErrorDiag("Failed to parse nsid", "Cannot parse cluster NsID " + Render(data.nsId))], cluster)
      case Some(nsID) => Conversion([], Populate(data, nsID, cluster))
  }

  /**
   * clusterToDataModel: name, version, NsID and the whole spec come from
   * the tenant, the region stays as it was; the etcd store takes the etcd
   * component and the tenant's etcd configuration. A nil component pointer
   * is dereferenced (None).
   */
  function FromCluster(t: Mgmt.Tenant, data: ClusterModel): (r: Option<ClusterModel>)
    ensures r.Some? <==> HasComponents(t)
    ensures r.Some? ==> r.value.region == data.region && r.value.nsId == Known(Uuid.ToString(t.nsId))
    ensures r.Some? ==> r.value.name == Known(t.tenantName) && r.value.version == Known(t.imageTag)
  {
    if !HasComponents(t) then None
    else
      var c := t.resources.components;
      var meta := MetaSpecModel(
        Known(FromComponent(c.meta.value)),
        Known(EtcdMetaStoreModel(Known(FromComponent(c.etcd)), Known(t.etcdConfig))));
      Some(ClusterModel(
        Known(Uuid.ToString(t.nsId)),
        data.region,
        Known(t.tenantName),
        Known(t.imageTag),
        Known(ClusterSpecModel(
          ComponentSpecOf(c.compute.value),
          ComponentSpecOf(c.compactor.value),
          ComponentSpecOf(c.frontend.value),
          Known(meta),
          Known(t.rwConfig)))))
  }

  /** resourceEqual: the component type ID and the replica count agree; sizes are ignored. */
  predicate ResourceEqual(a: Mgmt.ComponentResource, b: Mgmt.ComponentResource)
  {
    a.componentTypeId == b.componentTypeId && a.replica == b.replica
  }

  /** Two optional components hold the same (type ID, replica) pair. */
  predicate SamePair(a: Option<Mgmt.ComponentResource>, b: Option<Mgmt.ComponentResource>)
  {
    a.Some? && b.Some? && ResourceEqual(a.value, b.value)
  }

  /**
   * Round trip: converting a tenant to the model and back gives the same
   * NsID, name, version, configurations and (type ID, replica) pairs of all
   * five components, with no diagnostic.
   */
  lemma RoundTrip(t: Mgmt.Tenant, data: ClusterModel, cluster: Mgmt.Tenant)
    requires HasComponents(t)
    ensures var back := ToCluster(FromCluster(t, data).value, cluster);
      back.diags == []
      && back.tenant.nsId == t.nsId && back.tenant.tenantName == t.tenantName && back.tenant.imageTag == t.imageTag
      && back.tenant.rwConfig == t.rwConfig && back.tenant.etcdConfig == t.etcdConfig
      && SamePair(back.tenant.resources.components.compute, t.resources.components.compute)
      && SamePair(back.tenant.resources.components.compactor, t.resources.components.compactor)
      && SamePair(back.tenant.resources.components.frontend, t.resources.components.frontend)
      && SamePair(back.tenant.resources.components.meta, t.resources.components.meta)
      && ResourceEqual(back.tenant.resources.components.etcd, t.resources.components.etcd)
  {
    var m := FromCluster(t, data).value;
    ParseNsIdKnown(t.nsId, m.nsId);
    assert !MetaSpecOf(m.spec).etcdMetaStore.Null?;
  }

  /** The create request built from the converted tenant; None when a component pointer is nil. */
  function CreateRequest(cluster: Mgmt.Tenant): (r: Option<Mgmt.TenantRequest>)
    ensures r.Some? <==> HasComponents(cluster)
    ensures r.Some? ==> r.value.tenantName == cluster.tenantName && r.value.tier == Some(DefaultTier)
    ensures r.Some? ==> r.value.resources.Some? && r.value.resources.value.etcdVolumeSizeGiB == cluster.resources.etcdVolumeSizeGiB
  {
    if !HasComponents(cluster) then None
    else
      var c := cluster.resources.components;
      Some(Mgmt.TenantRequest(
        cluster.tenantName,
        Some(cluster.imageTag),
        Some(cluster.rwConfig),
        Some(cluster.etcdConfig),
        Some(DefaultTier),
        None,
        Some(Mgmt.TenantResourceRequest(
          Mgmt.TenantResourceRequestComponents(
            Some(ComponentRequest(c.compute.value)), Some(ComponentRequest(c.compactor.value)), Some(ComponentRequest(c.frontend.value)),
            Some(ComponentRequest(c.meta.value)), ComponentRequest(c.etcd)),
          cluster.resources.computeFileCacheSizeGiB,
          cluster.resources.enableComputeFileCache,
          cluster.resources.etcdVolumeSizeGiB,
          Mgmt.TenantResourceRequestMetaStore("", None)))))
  }

  /** The rendered region is never empty, so Create's "Invalid region" check cannot fire. */
  lemma RegionNeverEmpty(region: Value<string>)
    ensures |Render(region)| > 0
  {
  }

  /** The create call has been made: a nil or incomplete answer is dereferenced. */
  function Created(plan: ClusterModel, calls: seq<Call>, created: Result<Option<Mgmt.Tenant>, Error>): (r: ClusterRun)
    ensures r.calls == calls
    ensures created.Err? ==> r == Stop(calls, AwaitFailure(created.error, "Unable to create cluster"))
    ensures r.panic.Some? <==> created.Ok? && (created.value.None? || !HasComponents(created.value.value))
    ensures r.write.Saved? <==> created.Ok? && created.value.Some? && HasComponents(created.value.value)
    ensures r.write.Saved? ==> r.write.model.nsId == Known(Uuid.ToString(created.value.value.nsId))
    ensures r.write.Saved? ==> r.write.model == FromCluster(created.value.value, plan).value && r.diags == [] && r.panic.None?
  {
    match created
    case Err(e) => Stop(calls, AwaitFailure(e, "Unable to create cluster"))
    case Ok(None) => Crash(calls, NilDereference)
    case Ok(Some(t)) =>
      match FromCluster(t, plan)
      case None => Crash(calls, NilDereference)
      case Some(m) => Done(calls, Saved(m))
  }

  const NameCheckFailed := "Unable to check cluster existence"
  const NameTaken := "Cluster name already exists"

  /** The error for a name already in use. */
  function NameTakenDiag(name: string): Diagnostic
  {
    ErrorDiag(NameTaken, "Cluster with name " + name + " already exists, please use `terraform import` command to manage existing clusters")
  }

  /** The name is free: the request is built from the component pointers, then the cluster is created and awaited. */
  function Requested(plan: ClusterModel, region: string, cluster: Mgmt.Tenant, calls: seq<Call>,
                     created: Result<Option<Mgmt.Tenant>, Error>): (r: ClusterRun)
    ensures !HasComponents(cluster) ==> r == Crash(calls, NilDereference)
    ensures HasComponents(cluster) ==> r == Created(plan, calls + [CreateAwait(region, CreateRequest(cluster).value)], created)
  {
    match CreateRequest(cluster)
    case None => Crash(calls, NilDereference)
    case Some(req) => Created(plan, calls + [CreateAwait(region, req)], created)
  }

  /**
   * Create once the cluster has been converted: the name is checked first,
   * then the cluster is created and awaited, then converted back.
   */
  function CreateConverted(plan: ClusterModel, region: string, cluster: Mgmt.Tenant,
                           exists_: Result<bool, Error>, created: Result<Option<Mgmt.Tenant>, Error>): (r: ClusterRun)
    ensures |r.calls| >= 1 && r.calls[0] == NameExists(region, cluster.tenantName)
    ensures exists_.Err? ==> r == Stop([NameExists(region, cluster.tenantName)], ErrorDiag(NameCheckFailed, ErrorText(exists_.error)))
    ensures exists_ == Ok(true) ==> r == Stop([NameExists(region, cluster.tenantName)], NameTakenDiag(cluster.tenantName))
    ensures exists_ == Ok(false) && !HasComponents(cluster) ==> r == Crash([NameExists(region, cluster.tenantName)], NilDereference)
    ensures exists_ == Ok(false) && HasComponents(cluster) ==>
      r == Created(plan, [NameExists(region, cluster.tenantName), CreateAwait(region, CreateRequest(cluster).value)], created)
  {
    var calls := [NameExists(region, cluster.tenantName)];
    match exists_
    case Err(e) => Stop(calls, ErrorDiag(NameCheckFailed, ErrorText(e)))
    case Ok(true) => Stop(calls, NameTakenDiag(cluster.tenantName))
    case Ok(false) => Requested(plan, region, cluster, calls, created)
  }

  /**
   * Create, as written: the region is the quoted rendering of the
   * attribute, and the conversion's diagnostics are dropped, so a failed
   * conversion goes on with the zero tenant.
   */
  function Create(plan: ClusterModel, exists_: Result<bool, Error>, created: Result<Option<Mgmt.Tenant>, Error>): (r: ClusterRun)
    ensures r == CreateConverted(plan, Render(plan.region), ToCluster(plan, Mgmt.ZeroTenant).tenant, exists_, created)
    ensures |r.calls| >= 1 && r.calls[0] == NameExists(Render(plan.region), ToCluster(plan, Mgmt.ZeroTenant).tenant.tenantName)
  {
    RegionNeverEmpty(plan.region);
    var t := ToCluster(plan, Mgmt.ZeroTenant).tenant;
    CreateConverted(plan, Render(plan.region), t, exists_, created)
  }

  /** A name check that fails or finds the name taken ends Create after that one call. */
  lemma CreateStopsOnName(plan: ClusterModel, exists_: Result<bool, Error>, created: Result<Option<Mgmt.Tenant>, Error>)
    ensures exists_.Err? ==>
      |Create(plan, exists_, created).calls| == 1
      && Create(plan, exists_, created).diags == [ErrorDiag(NameCheckFailed, ErrorText(exists_.error))]
    ensures exists_ == Ok(true) ==>
      |Create(plan, exists_, created).calls| == 1
      && Create(plan, exists_, created).diags == [NameTakenDiag(ToCluster(plan, Mgmt.ZeroTenant).tenant.tenantName)]
  {
    var t := ToCluster(plan, Mgmt.ZeroTenant).tenant;
    assert Create(plan, exists_, created) == CreateConverted(plan, Render(plan.region), t, exists_, created);
  }

  /**
   * With the name free, Create sends the request built from the converted
   * tenant, or dereferences a nil component pointer when the tenant lacks one.
   */
  lemma CreateSendsConverted(plan: ClusterModel, created: Result<Option<Mgmt.Tenant>, Error>)
    ensures var t := ToCluster(plan, Mgmt.ZeroTenant).tenant;
      !HasComponents(t) ==> Create(plan, Ok(false), created).panic == Some(NilDereference)
    ensures var t := ToCluster(plan, Mgmt.ZeroTenant).tenant;
      HasComponents(t) ==>
        |Create(plan, Ok(false), created).calls| == 2
        && Create(plan, Ok(false), created).calls[1] == CreateAwait(Render(plan.region), CreateRequest(t).value)
  {
    var t := ToCluster(plan, Mgmt.ZeroTenant).tenant;
    assert Create(plan, Ok(false), created) == CreateConverted(plan, Render(plan.region), t, Ok(false), created);
  }

  /**
   * Create saves a state exactly when the name is free, the converted
   * tenant is complete and the awaited cluster comes back complete; the
   * state saved is that cluster's conversion.
   */
  lemma CreateSaves(plan: ClusterModel, exists_: Result<bool, Error>, created: Result<Option<Mgmt.Tenant>, Error>)
    ensures var t := ToCluster(plan, Mgmt.ZeroTenant).tenant;
      Create(plan, exists_, created).write.Saved? <==>
        exists_ == Ok(false) && HasComponents(t) && created.Ok? && created.value.Some? && HasComponents(created.value.value)
    ensures Create(plan, exists_, created).write.Saved? ==>
      created.Ok? && created.value.Some?
      && Create(plan, exists_, created).write.model == FromCluster(created.value.value, plan).value
      && Create(plan, exists_, created).diags == []
  {
    var t := ToCluster(plan, Mgmt.ZeroTenant).tenant;
    assert Create(plan, exists_, created) == CreateConverted(plan, Render(plan.region), t, exists_, created);
  }

  /**
   * The NsID is computed, so a create plan holds it unknown; its quoted
   * rendering never parses, the conversion fails, and once the name check
   * (made for the empty name) passes, building the request dereferences the
   * zero tenant's nil component pointers.
   */
  lemma CreateWithUnknownNsIdPanics(plan: ClusterModel, created: Result<Option<Mgmt.Tenant>, Error>)
    requires plan.nsId == Unknown
    ensures Create(plan, Ok(false), created) == Crash([NameExists(Render(plan.region), "")], NilDereference)
  {
    ParseNsIdKnown(Uuid.Nil, plan.nsId);
  }

  /**
   * Create as the check right after the conversion evidently intends: a
   * conversion error stops Create before any client call. As the NsID does
   * not exist before the cluster does, the conversion here takes the nil
   * UUID instead of parsing the plan's.
   */
  function CreateIntended(plan: ClusterModel, exists_: Result<bool, Error>, created: Result<Option<Mgmt.Tenant>, Error>): (r: ClusterRun)
    ensures MetaSpecOf(plan.spec).etcdMetaStore.Null? ==> r == Stop([], MissingMetaStore)
    ensures r.panic.Some? ==> created.Ok? && (created.value.None? || !HasComponents(created.value.value))
    ensures !MetaSpecOf(plan.spec).etcdMetaStore.Null? && exists_ == Ok(false) ==>
      var cluster := Populate(plan, Uuid.Nil, Mgmt.ZeroTenant);
      r.calls == [NameExists(Render(plan.region), ValueString(plan.name)), CreateAwait(Render(plan.region), CreateRequest(cluster).value)]
  {
    if MetaSpecOf(plan.spec).etcdMetaStore.Null? then Stop([], MissingMetaStore)
    else CreateConverted(plan, Render(plan.region), Populate(plan, Uuid.Nil, Mgmt.ZeroTenant), exists_, created)
  }

  /**
   * Read: the stored NsID must parse; a cluster the API no longer knows is
   * removed from the state, any other error is reported.
   */
  function Read(state: ClusterModel, got: Result<Option<Mgmt.Tenant>, Error>): (r: ClusterRun)
    ensures ParseNsId(state.nsId).None? ==>
      r == Stop([], ErrorDiag("Failed to parse nsid", "Cannot parse cluster NsID " + Render(state.nsId)))
    ensures ParseNsId(state.nsId).Some? ==> r.calls == [GetByNsID(ParseNsId(state.nsId).value)]
    ensures r.write.Removed? <==> ParseNsId(state.nsId).Some? && got.Err? && Is(got.error, PkgClusterNotFound)
    ensures r.write.Removed? ==> r.diags == []
    ensures ParseNsId(state.nsId).Some? && got.Err? && !Is(got.error, PkgClusterNotFound) ==>
      r == Stop([GetByNsID(ParseNsId(state.nsId).value)], ErrorDiag("Unable to read cluster", ErrorText(got.error)))
    ensures ParseNsId(state.nsId).Some? && got == Ok(None) ==> r.panic == Some(NilDereference)
    ensures r.write.Saved? <==>
      ParseNsId(state.nsId).Some? && got.Ok? && got.value.Some? && FromCluster(got.value.value, state).Some?
    ensures r.write.Saved? ==> r.write.model == FromCluster(got.value.value, state).value && r.diags == [] && r.panic.None?
    ensures r.write.Saved? ==> r.write.model.region == state.region
    ensures ParseNsId(state.nsId).Some? && got.Ok? && got.value.Some? && FromCluster(got.value.value, state).None? ==>
      r.panic == Some(NilDereference)
  {
    match ParseNsId(state.nsId)
    case None => Stop([], ErrorDiag("Failed to parse nsid", "Cannot parse cluster NsID " + Render(state.nsId)))
    case Some(nsID) =>
      var calls := [GetByNsID(nsID)];
      match got
      case Err(e) =>
        if Is(e, PkgClusterNotFound) then Done(calls, Removed)
        else Stop(calls, ErrorDiag("Unable to read cluster", ErrorText(e)))
      case Ok(None) => Crash(calls, NilDereference)
      case Ok(Some(t)) =>
        match FromCluster(t, state)
        case None => Crash(calls, NilDereference)
        case Some(m) => Done(calls, Saved(m))
  }

  /**
   * The immutable-field checks of Update, all made: file-cache flag,
   * file-cache size, etcd volume size, name, then the etcd resource.
   */
  function ImmutableViolations(previous: Mgmt.Tenant, updated: Mgmt.Tenant): (ds: seq<Diagnostic>)
    ensures ds == [] <==>
      previous.resources.enableComputeFileCache == updated.resources.enableComputeFileCache
      && previous.resources.computeFileCacheSizeGiB == updated.resources.computeFileCacheSizeGiB
      && previous.resources.etcdVolumeSizeGiB == updated.resources.etcdVolumeSizeGiB
      && previous.tenantName == updated.tenantName
      && ResourceEqual(previous.resources.components.etcd, updated.resources.components.etcd)
    ensures |ds| <= 5 && forall i :: 0 <= i < |ds| ==> ds[i].severity == SeverityError
    ensures !ResourceEqual(previous.resources.components.etcd, updated.resources.components.etcd) ==>
      ds[|ds| - 1] == ErrorDiag("Cannot update immutable field", "Etcd resource cannot be changed")
  {
    (if previous.resources.enableComputeFileCache != updated.resources.enableComputeFileCache
     then [ErrorDiag("Cannot update immutable field", "Compute file cache cannot be changed")] else [])
    + (if previous.resources.computeFileCacheSizeGiB != updated.resources.computeFileCacheSizeGiB
       then [ErrorDiag("Cannot update immutable field", "Compute file cache size cannot be changed")] else [])
    + (if previous.resources.etcdVolumeSizeGiB != updated.resources.etcdVolumeSizeGiB
       then [ErrorDiag("Cannot update updatete immutable field", "Etcd volume size cannot be changed")] else [])
    + (if previous.tenantName != updated.tenantName
       then [ErrorDiag("Cannot update immutable field", "Cluster name cannot be changed")] else [])
    + (if !ResourceEqual(previous.resources.components.etcd, updated.resources.components.etcd)
       then [ErrorDiag("Cannot update immutable field", "Etcd resource cannot be changed")] else [])
  }

  /** The position of a step kind in Update's fixed order. */
  function Rank(s: Step): nat
  {
    match s
    case SetImage(_) => 0
    case SetRwConfig(_) => 1
    case SetEtcdConfig(_) => 2
    case SetResources(_) => 3
  }

  /** Each kind at most once, in the order image, RisingWave config, etcd config, components. */
  predicate InOrder(steps: seq<Step>)
  {
    forall i, j :: 0 <= i < j < |steps| ==> Rank(steps[i]) < Rank(steps[j])
  }

  /**
   * The updates before the component check: the image, the RisingWave
   * configuration and the etcd configuration, each only when it differs.
   */
  function ConfigSteps(previous: Mgmt.Tenant, updated: Mgmt.Tenant): (steps: seq<Step>)
    ensures InOrder(steps)
    ensures SetImage(updated.imageTag) in steps <==> previous.imageTag != updated.imageTag
    ensures SetRwConfig(updated.rwConfig) in steps <==> previous.rwConfig != updated.rwConfig
    ensures SetEtcdConfig(updated.etcdConfig) in steps <==> previous.etcdConfig != updated.etcdConfig
    ensures forall i :: 0 <= i < |steps| ==> steps[i] in {SetImage(updated.imageTag), SetRwConfig(updated.rwConfig), SetEtcdConfig(updated.etcdConfig)}
  {
    (if previous.imageTag != updated.imageTag then [SetImage(updated.imageTag)] else [])
    + (if previous.rwConfig != updated.rwConfig then [SetRwConfig(updated.rwConfig)] else [])
    + (if previous.etcdConfig != updated.etcdConfig then [SetEtcdConfig(updated.etcdConfig)] else [])
  }

  /** What the component check decides: nothing, one resources update, or a nil dereference. */
  datatype Decision = Skip | Issue(step: Step) | NilComponent

  /** resourceEqual on two pointers: None when either is nil and so dereferenced. */
  function PointerEqual(a: Option<Mgmt.ComponentResource>, b: Option<Mgmt.ComponentResource>): (r: Option<bool>)
    ensures r.Some? <==> a.Some? && b.Some?
    ensures r == Some(true) <==> SamePair(a, b)
  {
    if a.None? || b.None? then None else Some(ResourceEqual(a.value, b.value))
  }

  /**
   * Whether compute, compactor, frontend and meta all agree, evaluated left
   * to right with Go's short-circuit: a nil pointer is reached only if every
   * earlier pair agreed.
   */
  function ComponentsEqual(previous: Mgmt.Tenant, updated: Mgmt.Tenant): (r: Option<bool>)
    ensures r == Some(true) <==>
      SamePair(previous.resources.components.compute, updated.resources.components.compute)
      && SamePair(previous.resources.components.compactor, updated.resources.components.compactor)
      && SamePair(previous.resources.components.frontend, updated.resources.components.frontend)
      && SamePair(previous.resources.components.meta, updated.resources.components.meta)
    ensures HasComponents(previous) && HasComponents(updated) ==> r.Some?
  {
    var p, u := previous.resources.components, updated.resources.components;
    match PointerEqual(p.compute, u.compute)
    case None => None
    case Some(false) => Some(false)
    case Some(true) =>
      match PointerEqual(p.compactor, u.compactor)
      case None => None
      case Some(false) => Some(false)
      case Some(true) =>
        match PointerEqual(p.frontend, u.frontend)
        case None => None
        case Some(false) => Some(false)
        case Some(true) => PointerEqual(p.meta, u.meta)
  }

  /**
   * The component check and, when a pair differs, the resources update: the
   * body carries compute, compactor, frontend and meta of the plan, and
   * never etcd, which the body has no place for.
   */
  function ResourcesDecision(previous: Mgmt.Tenant, updated: Mgmt.Tenant): (d: Decision)
    ensures HasComponents(previous) && HasComponents(updated) ==> !d.NilComponent?
    ensures d.Skip? <==> ComponentsEqual(previous, updated) == Some(true)
    ensures d.Issue? ==> d.step.SetResources? && HasComponents(updated)
    ensures d.Issue? ==>
      var c := updated.resources.components;
      d.step.body == Mgmt.PostTenantResourcesRequestBody(
        Some(ComponentRequest(c.compute.value)), Some(ComponentRequest(c.compactor.value)),
        Some(ComponentRequest(c.frontend.value)), Some(ComponentRequest(c.meta.value)))
  {
    match ComponentsEqual(previous, updated)
    case None => NilComponent
    case Some(true) => Skip
    case Some(false) =>
      if !HasComponents(updated) then NilComponent
      else
        var c := updated.resources.components;
        Issue(SetResources(Mgmt.PostTenantResourcesRequestBody(
          Some(ComponentRequest(c.compute.value)), Some(ComponentRequest(c.compactor.value)),
          Some(ComponentRequest(c.frontend.value)), Some(ComponentRequest(c.meta.value)))))
  }

  /** The summary a failed step reports, unless it timed out. */
  function FailSummary(s: Step): string
  {
    match s
    case SetImage(_) => "Unable to update cluster version"
    case SetRwConfig(_) => "Unable to update cluster risingwave config"
    case SetEtcdConfig(_) => "Unable to update cluster etcd config"
    case SetResources(_) => "Unable to update cluster resources"
  }

  /** The awaited update calls for the given steps, one per step. */
  function Applied(nsID: Uuid.Uuid, steps: seq<Step>): (calls: seq<Call>)
    ensures |calls| == |steps| && forall i :: 0 <= i < |steps| ==> calls[i] == Apply(nsID, steps[i])
  {
    seq(|steps|, i requires 0 <= i < |steps| => Apply(nsID, steps[i]))
  }

  /**
   * Runs the steps in order, each one awaited; the first failure stops the
   * rest. The answer of each step is a parameter; the result holds the
   * steps that were sent.
   */
  function Execute(steps: seq<Step>, answer: Step -> Option<Error>): (r: (seq<Step>, Option<Diagnostic>))
    ensures r.0 <= steps
    ensures forall i :: 0 <= i < |r.0| - 1 ==> answer(steps[i]).None?
    ensures r.1.None? <==> forall i :: 0 <= i < |steps| ==> answer(steps[i]).None?
    ensures r.1.None? ==> r.0 == steps
    ensures r.1.Some? ==>
      |r.0| > 0 && answer(steps[|r.0| - 1]).Some?
      && r.1.value == AwaitFailure(answer(steps[|r.0| - 1]).value, FailSummary(steps[|r.0| - 1]))
    decreases |steps|
  {
    if |steps| == 0 then ([], None)
    else
      match answer(steps[0])
      case Some(e) => ([steps[0]], Some(AwaitFailure(e, FailSummary(steps[0]))))
      case None =>
        var rest := Execute(steps[1..], answer);
        assert [steps[0]] + steps[1..] == steps;
        assert forall i :: 1 <= i < |steps| ==> steps[i] == steps[1..][i - 1];
        ([steps[0]] + rest.0, rest.1)
  }

  /** The component check and its resources update, after the configuration steps have all succeeded. */
  function FinishUpdate(nsID: Uuid.Uuid, calls: seq<Call>, decision: Decision, answer: Step -> Option<Error>, saved: ClusterModel): (r: ClusterRun)
    ensures decision.Skip? ==> r == Done(calls, Saved(saved))
    ensures decision.NilComponent? ==> r == Crash(calls, NilDereference)
    ensures decision.Issue? ==> r.calls == calls + [Apply(nsID, decision.step)]
    ensures decision.Issue? && answer(decision.step).Some? ==>
      r.diags == [AwaitFailure(answer(decision.step).value, FailSummary(decision.step))] && r.write.Untouched?
    ensures r.write.Saved? ==> r.write.model == saved && r.diags == []
  {
    match decision
    case NilComponent => Crash(calls, NilDereference)
    case Skip => Done(calls, Saved(saved))
    case Issue(s) =>
      match answer(s)
      case Some(e) => Stop(calls + [Apply(nsID, s)], AwaitFailure(e, FailSummary(s)))
      case None => Done(calls + [Apply(nsID, s)], Saved(saved))
  }

  /**
   * Update once the previous cluster has been read: all immutable
   * violations are reported together with no update call; otherwise the
   * configuration steps run, then the component check.
   */
  function UpdateRead(data: ClusterModel, nsID: Uuid.Uuid, previous: Mgmt.Tenant, updated: Mgmt.Tenant,
                      answer: Step -> Option<Error>): (r: ClusterRun)
    ensures |r.calls| >= 1 && r.calls[0] == GetByNsID(nsID)
    ensures ImmutableViolations(previous, updated) != [] ==>
      r == Run([GetByNsID(nsID)], ImmutableViolations(previous, updated), Untouched, None)
    ensures ImmutableViolations(previous, updated) == [] && Execute(ConfigSteps(previous, updated), answer).1.Some? ==>
      r == Stop([GetByNsID(nsID)] + Applied(nsID, Execute(ConfigSteps(previous, updated), answer).0),
                Execute(ConfigSteps(previous, updated), answer).1.value)
    ensures ImmutableViolations(previous, updated) == [] && Execute(ConfigSteps(previous, updated), answer).1.None? ==>
      r == FinishUpdate(nsID, [GetByNsID(nsID)] + Applied(nsID, Execute(ConfigSteps(previous, updated), answer).0),
                        ResourcesDecision(previous, updated), answer, data.(nsId := Known(Uuid.ToString(previous.nsId))))
  {
    var vs := ImmutableViolations(previous, updated);
    if vs != [] then Run([GetByNsID(nsID)], vs, Untouched, None)
    else
      var run := Execute(ConfigSteps(previous, updated), answer);
      var calls := [GetByNsID(nsID)] + Applied(nsID, run.0);
      if run.1.Some? then Stop(calls, run.1.value)
      else FinishUpdate(nsID, calls, ResourcesDecision(previous, updated), answer, data.(nsId := Known(Uuid.ToString(previous.nsId))))
  }

  /**
   * Update: the plan's NsID must parse; the plan is converted (its
   * diagnostics dropped) and the cluster read by NsID before the checks.
   */
  function Update(plan: ClusterModel, previous: Result<Option<Mgmt.Tenant>, Error>, answer: Step -> Option<Error>): (r: ClusterRun)
    ensures ParseNsId(plan.nsId).None? ==>
      r == Stop([], ErrorDiag("Failed to parse nsid", "Cannot parse cluster NsID " + Render(plan.nsId)))
    ensures ParseNsId(plan.nsId).Some? ==> |r.calls| >= 1 && r.calls[0] == GetByNsID(ParseNsId(plan.nsId).value)
    ensures ParseNsId(plan.nsId).Some? && previous.Ok? && previous.value.Some? ==>
      r == UpdateRead(plan, ParseNsId(plan.nsId).value, previous.value.value, ToCluster(plan, Mgmt.ZeroTenant).tenant, answer)
  {
    match ParseNsId(plan.nsId)
    case None => Stop([], ErrorDiag("Failed to parse nsid", "Cannot parse cluster NsID " + Render(plan.nsId)))
    case Some(nsID) =>
      var updated := ToCluster(plan, Mgmt.ZeroTenant).tenant;
      match previous
      case Err(e) => Stop([GetByNsID(nsID)], ErrorDiag("Unable to read cluster", ErrorText(e)))
      case Ok(None) => Crash([GetByNsID(nsID)], NilDereference)
      case Ok(Some(p)) => UpdateRead(plan, nsID, p, updated, answer)
  }

  /**
   * The steps Update sends, when all goes well, are the differing
   * configurations and then, if a component pair differs, one resources
   * update, in the fixed order.
   */
  lemma UpdatePlanInOrder(previous: Mgmt.Tenant, updated: Mgmt.Tenant)
    requires ResourcesDecision(previous, updated).Issue?
    ensures InOrder(ConfigSteps(previous, updated) + [ResourcesDecision(previous, updated).step])
  {
    var steps := ConfigSteps(previous, updated);
    var all := steps + [ResourcesDecision(previous, updated).step];
    forall i, j | 0 <= i < j < |all| ensures Rank(all[i]) < Rank(all[j]) {
      if j < |steps| {
        assert all[i] == steps[i] && all[j] == steps[j];
      } else {
        assert all[i] == steps[i];
        assert steps[i] in {SetImage(updated.imageTag), SetRwConfig(updated.rwConfig), SetEtcdConfig(updated.etcdConfig)};
      }
    }
  }

  /** Delete: the NsID must parse; the delete is awaited, and a timeout has its own summary. */
  function Delete(state: ClusterModel, deleted: Option<Error>): (r: ClusterRun)
    ensures ParseNsId(state.nsId).None? ==>
      r == Stop([], ErrorDiag("Failed to parse nsid", "Cannot parse cluster NsID " + Render(state.nsId)))
    ensures ParseNsId(state.nsId).Some? ==> r.calls == [DeleteAwait(ParseNsId(state.nsId).value)]
    ensures ParseNsId(state.nsId).Some? && deleted.Some? ==> r.diags == [AwaitFailure(deleted.value, "Unable to delete cluster")]
    ensures r.diags == [] <==> ParseNsId(state.nsId).Some? && deleted.None?
  {
    match ParseNsId(state.nsId)
    case None => Stop([], ErrorDiag("Failed to parse nsid", "Cannot parse cluster NsID " + Render(state.nsId)))
    case Some(nsID) =>
      match deleted
      case Some(e) => Stop([DeleteAwait(nsID)], AwaitFailure(e, "Unable to delete cluster"))
      case None => Done([DeleteAwait(nsID)], Untouched)
  }

  /**
   * ImportState: the ID must be a UUID, stored as its canonical text. The
   * error message formats the UUID uuid.Parse returned alongside its error
   * rather than the ID given: the nil UUID when the length or the prefix is
   * wrong, the bytes read before the first bad pair otherwise.
   */
  function ImportState(id: string): (r: ClusterRun)
    ensures Uuid.Parse(id).None? ==>
      r == Stop([], ErrorDiag("Unexpected Import Identifier", "Failed to parse id: " + Uuid.ToString(Uuid.ParseResult(id).uuid)))
    ensures Uuid.ParseResult(id).err.Some? && Uuid.ParseResult(id).err != Some(Uuid.InvalidFormat) ==>
      r == Stop([], ErrorDiag("Unexpected Import Identifier", "Failed to parse id: " + Uuid.ToString(Uuid.Nil)))
    ensures Uuid.Parse(id).Some? ==> r == Done([], Attributes([("nsid", Uuid.ToString(Uuid.Parse(id).value))]))
  {
    var parsed := Uuid.ParseResult(id);
    match Uuid.Parse(id)
    case None => Stop([], ErrorDiag("Unexpected Import Identifier", "Failed to parse id: " + Uuid.ToString(parsed.uuid)))
    case Some(u) => Done([], Attributes([("nsid", Uuid.ToString(u))]))
  }

  /**
   * An ID that fails in its fifth pair is reported with the four bytes read
   * before it: "12345678-zzzz-0000-0000-000000000000" gives the message
   * "Failed to parse id: 12345678-0000-0000-0000-000000000000".
   */
  lemma ImportNamesPartialUuid(id: string)
    requires id == "12345678-zzzz-0000-0000-000000000000"
    ensures ImportState(id) == Stop([], ErrorDiag("Unexpected Import Identifier",
      "Failed to parse id: " + Uuid.ToString(Uuid.PartialUuid)))
  {
    Uuid.PartialParse(id);
  }

  /** The NsID an import stores is read back as the same UUID. */
  lemma ImportThenRead(id: string, state: ClusterModel, got: Result<Option<Mgmt.Tenant>, Error>)
    requires Uuid.Parse(id).Some?
    requires state.nsId == Known(ImportState(id).write.values[0].1)
    ensures Read(state, got).calls == [GetByNsID(Uuid.Parse(id).value)]
  {
    ParseNsIdKnown(Uuid.Parse(id).value, state.nsId);
  }
}
