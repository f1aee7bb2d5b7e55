/**
 * internal/cloudsdk/fake/fake.go: the fake cloud client the provider uses
 * when RWC_MOCK is set. Every operation reads and writes the global state
 * of FakeState. The state is passed in and returned; fresh namespace IDs,
 * link IDs and user sysids, which the Go code draws at random, are
 * parameters; the visiting order of each Go map range is a parameter.
 */
module Fake {
  import opened Wrappers
  import opened GoErrors
  import opened Mgmt
  import opened GoMaps
  import opened FakeState
  import InternalRegion
  import Uuid

  const DefaultClusterName := "default-control-plane"
  const FakeEndpoint := "vpce-fakestatetest"

  /** The two component types every fake tier offers. */
  const Catalog: seq<AvailableComponentType> := [
    AvailableComponentType("p-1c4g", "1", "4 GB", 3),
    AvailableComponentType("p-2c8g", "2", "8 GB", 3)
  ]

  /** A fake tier: the catalog for each of the five node kinds and a 20 GiB etcd limit. */
  function FakeTier(id: string): (t: Tier)
    ensures t.id == Some(id) && t.maximumEtcdSizeGiB == 20
  {
    Tier(Some(id), Catalog, Catalog, Catalog, Catalog, Catalog, [], [], 20)
  }

  /** GetTiers: the Standard, BYOC and Invited tiers, for every region. */
  const FakeTiers: seq<Tier> := [FakeTier(Standard), FakeTier(Byoc), FakeTier(Invited)]

  /** The index of the first catalog entry with the ID. */
  function CatalogIndex(id: string): (r: Option<nat>)
    ensures r.Some? ==> r.value < |Catalog| && Catalog[r.value].id == id
    ensures r.None? <==> forall i :: 0 <= i < |Catalog| ==> Catalog[i].id != id
  {
    if Catalog[0].id == id then Some(0)
    else if Catalog[1].id == id then Some(1)
    else None
  }

  /**
   * componentReqToComponent: the request's type and replica with the
   * catalog's CPU and memory; nil when the type is not in the catalog; a
   * nil request is dereferenced.
   */
  function ComponentReqToComponent(req: Option<ComponentResourceRequest>): (r: Outcome<Option<ComponentResource>>)
    ensures r.Panic? <==> req.None?
    ensures !r.Fail?
    ensures r.Return? ==> (r.value.Some? <==> CatalogIndex(req.value.componentTypeId).Some?)
    ensures r.Return? && r.value.Some? ==> (r.value.value.componentTypeId == req.value.componentTypeId
      && r.value.value.replica == req.value.replica
      && r.value.value.cpu == Catalog[CatalogIndex(req.value.componentTypeId).value].cpu
      && r.value.value.memory == Catalog[CatalogIndex(req.value.componentTypeId).value].memory)
  {
    match req
    case None => Panic(NilDereference)
    case Some(q) =>
      match CatalogIndex(q.componentTypeId)
      case None => Return(None)
      case Some(i) => Return(Some(ComponentResource(q.componentTypeId, q.replica, Catalog[i].cpu, Catalog[i].memory)))
  }

  /** Every catalog type resolves to its own size, whatever the replica count. */
  lemma CatalogTypesResolve(i: nat, replica: int)
    requires i < |Catalog|
    ensures ComponentReqToComponent(Some(ComponentResourceRequest(Catalog[i].id, replica)))
         == Return(Some(ComponentResource(Catalog[i].id, replica, Catalog[i].cpu, Catalog[i].memory)))
  {
  }

  /** etcdRequestToResource: as componentReqToComponent, keeping the requested size. */
  function EtcdRequestToResource(req: Option<TenantResourceRequestMetaStoreEtcd>): (r: Outcome<Option<MetaStoreEtcd>>)
    ensures r.Panic? <==> req.None?
    ensures !r.Fail?
    ensures r.Return? ==> (r.value.Some? <==> CatalogIndex(req.value.componentTypeId).Some?)
    ensures r.Return? && r.value.Some? ==> (r.value.value.sizeGb == req.value.sizeGb
      && Return(Some(r.value.value.resource))
         == ComponentReqToComponent(Some(ComponentResourceRequest(req.value.componentTypeId, req.value.replica))))
  {
    match req
    case None => Panic(NilDereference)
    case Some(q) =>
      match CatalogIndex(q.componentTypeId)
      case None => Return(None)
      case Some(i) => Return(Some(MetaStoreEtcd(ComponentResource(q.componentTypeId, q.replica, Catalog[i].cpu, Catalog[i].memory), q.sizeGb)))
  }

  /** The zero ComponentResource, the etcd slot the fake leaves unset. */
  const ZeroComponent := ComponentResource("", 0, "", "")

  /**
   * reqResouceToClusterResource: the four components through the catalog,
   * the file cache size as the compute cache size, and the meta store's
   * type and etcd; every other field keeps its zero value.
   */
  function ReqResourceToClusterResource(req: Option<TenantResourceRequest>): (r: Outcome<TenantResource>)
    ensures r.Panic? <==> (req.None?
      || ComponentReqToComponent(req.value.components.compute).Panic?
      || ComponentReqToComponent(req.value.components.compactor).Panic?
      || ComponentReqToComponent(req.value.components.frontend).Panic?
      || ComponentReqToComponent(req.value.components.meta).Panic?
      || EtcdRequestToResource(req.value.metaStore.etcd).Panic?)
    ensures !r.Fail?
    ensures r.Return? ==> (r.value.computeCacheSizeGb == req.value.computeFileCacheSizeGiB
      && r.value.components.compute == ComponentReqToComponent(req.value.components.compute).value
      && r.value.components.compactor == ComponentReqToComponent(req.value.components.compactor).value
      && r.value.components.frontend == ComponentReqToComponent(req.value.components.frontend).value
      && r.value.components.meta == ComponentReqToComponent(req.value.components.meta).value
      && r.value.components.etcd == ZeroComponent
      && r.value.metaStore == Some(TenantResourceMetaStore(req.value.metaStore.storeType, EtcdRequestToResource(req.value.metaStore.etcd).value)))
  {
    match req
    case None => Panic(NilDereference)
    case Some(q) =>
      var compute := ComponentReqToComponent(q.components.compute);
      var compactor := ComponentReqToComponent(q.components.compactor);
      var frontend := ComponentReqToComponent(q.components.frontend);
      var meta := ComponentReqToComponent(q.components.meta);
      var etcd := EtcdRequestToResource(q.metaStore.etcd);
      if compute.Panic? || compactor.Panic? || frontend.Panic? || meta.Panic? || etcd.Panic? then Panic(NilDereference)
      else
        Return(TenantResource(
          TenantResourceComponents(compute.value, compactor.value, frontend.value, meta.value, ZeroComponent),
          0, false, 0, q.computeFileCacheSizeGiB,
          Some(TenantResourceMetaStore(q.metaStore.storeType, etcd.value))))
  }

  /** No region holds the namespace ID: what uuid.New is relied on to give. */
  predicate Fresh(g: GlobalState, nsID: Uuid.Uuid)
  {
    forall region :: region in g.regions ==> Uuid.ToString(nsID) !in g.regions[region].clusters
  }

  /** Store a new cluster under its own key in the region, created if needed. */
  function AddFresh(g: GlobalState, region: string, c: ClusterState): (g2: GlobalState)
    ensures g2.regions.Keys == g.regions.Keys + {region}
  {
    var (g1, r) := GetRegionState(g, region);
    PutRegion(g1, region, AddCluster(r, c))
  }

  /**
   * Adding a cluster whose namespace ID no region holds, in the region its
   * tenant names, keeps a consistent state consistent, and a lookup of the
   * ID then finds it there.
   */
  lemma AddFreshThenFind(g: GlobalState, region: string, c: ClusterState, order: seq<string>)
    requires Consistent(g) && Fresh(g, c.tenant.nsId) && c.tenant.region == region
    requires IsOrder(order, AddFresh(g, region, c).regions.Keys)
    ensures Consistent(AddFresh(g, region, c))
    ensures FakeState.GetClusterByNsID(AddFresh(g, region, c), c.tenant.nsId, order) == Ok(Found(region, c))
  {
    var g2 := AddFresh(g, region, c);
    var key := Uuid.ToString(c.tenant.nsId);
    var r := GetRegionState(g, region).1;
    assert g2.regions == g.regions[region := RegionState(r.clusters[key := c])];
    assert forall k :: k in r.clusters ==> k in g.regions[region].clusters;
    StoredConsistent(g, g2, region, key, c);
    var found := FakeState.GetClusterByNsID(g2, c.tenant.nsId, order);
    assert key in g2.regions[region].clusters;
    assert found.Ok?;
    assert found.value.region == region;
  }

  /**
   * CreateClusterAwait: the new tenant gets the next ID of its region, the
   * given namespace ID and the request's fields (a nil field is
   * dereferenced), and is stored in a fresh cluster state of that region.
   */
  function CreateClusterAwait(g: GlobalState, region: string, req: TenantRequest, nsID: Uuid.Uuid): (res: (GlobalState, Outcome<Tenant>))
    ensures res.1.Panic? <==> (req.imageTag.None? || req.rwConfig.None? || req.etcdConfig.None? || req.tier.None?
                               || ReqResourceToClusterResource(req.resources).Panic?)
    ensures !res.1.Fail?
    ensures res.1.Return? ==> (res.1.value.nsId == nsID && res.1.value.region == region
      && res.1.value.tenantName == req.tenantName && res.1.value.tier == req.tier.value
      && res.1.value.imageTag == req.imageTag.value && res.1.value.rwConfig == req.rwConfig.value
      && res.1.value.etcdConfig == req.etcdConfig.value
      && res.1.value.id == |GetRegionState(g, region).1.clusters| + 1
      && res.1.value.clusterName == Some(if req.clusterName.Some? then req.clusterName.value else DefaultClusterName)
      && res.1.value.resources == ReqResourceToClusterResource(req.resources).value)
    ensures res.1.Return? ==> res.0 == AddFresh(g, region, NewClusterState(res.1.value))
  {
    var (g1, r) := GetRegionState(g, region);
    var clusterName := if req.clusterName.Some? then req.clusterName.value else DefaultClusterName;
    var resources := ReqResourceToClusterResource(req.resources);
    if req.imageTag.None? || req.rwConfig.None? || req.etcdConfig.None? || req.tier.None? || resources.Panic? then
      (g1, Panic(NilDereference))
    else
      var t := Tenant(|r.clusters| + 1, nsID, req.tenantName, region, "", "", req.imageTag.value, req.rwConfig.value,
                      req.etcdConfig.value, req.tier.value, Some(clusterName), resources.value);
      (AddFresh(g, region, NewClusterState(t)), Return(t))
  }

  /** g2 equals g except, possibly, at one cluster key in each region. */
  predicate SameExcept(g: GlobalState, g2: GlobalState, key: string)
  {
    g2.regions.Keys == g.regions.Keys
    && forall region :: region in g.regions ==> g2.regions[region].clusters - {key} == g.regions[region].clusters - {key}
  }

  /**
   * A cluster created with a fresh namespace ID keeps the state consistent
   * and is what a later lookup of that ID finds, in the region asked for.
   */
  lemma CreateThenFind(g: GlobalState, region: string, req: TenantRequest, nsID: Uuid.Uuid, order: seq<string>)
    requires Consistent(g) && Fresh(g, nsID)
    requires CreateClusterAwait(g, region, req, nsID).1.Return?
    requires IsOrder(order, CreateClusterAwait(g, region, req, nsID).0.regions.Keys)
    ensures Consistent(CreateClusterAwait(g, region, req, nsID).0)
    ensures FakeState.GetClusterByNsID(CreateClusterAwait(g, region, req, nsID).0, nsID, order)
         == Ok(Found(region, NewClusterState(CreateClusterAwait(g, region, req, nsID).1.value)))
  {
    var out := CreateClusterAwait(g, region, req, nsID).1;
    AddFreshThenFind(g, region, NewClusterState(out.value), order);
  }

  /**
   * Writing cluster c under its own key into a region of a consistent
   * state, where no other region holds that key, keeps it consistent.
   */
  lemma StoredConsistent(g: GlobalState, g2: GlobalState, region: string, key: string, c: ClusterState)
    requires Consistent(g)
    requires key == Uuid.ToString(c.tenant.nsId) && c.tenant.region == region
    requires forall rg :: rg in g.regions && rg != region ==> key !in g.regions[rg].clusters
    requires g2.regions.Keys == g.regions.Keys + {region}
    requires region in g2.regions && g2.regions[region].clusters.Keys <= (if region in g.regions then g.regions[region].clusters.Keys else {}) + {key}
    requires key in g2.regions[region].clusters && g2.regions[region].clusters[key] == c
    requires forall k :: k in g2.regions[region].clusters && k != key ==> g2.regions[region].clusters[k] == g.regions[region].clusters[k]
    requires forall rg :: rg in g2.regions && rg != region ==> g2.regions[rg] == g.regions[rg]
    ensures Consistent(g2)
  {
    forall rg, k | rg in g2.regions && k in g2.regions[rg].clusters
      ensures k == Uuid.ToString(g2.regions[rg].clusters[k].tenant.nsId) && g2.regions[rg].clusters[k].tenant.region == rg
    {
      if rg != region || k != key {
        assert k in g.regions[rg].clusters;
      }
    }
    forall r1, r2, k | r1 in g2.regions && r2 in g2.regions && k in g2.regions[r1].clusters && k in g2.regions[r2].clusters
      ensures r1 == r2
    {
      if k != key {
        assert k in g.regions[r1].clusters && k in g.regions[r2].clusters;
      }
    }
  }

  /** Write a found cluster back under the key it was found by (the effect of mutating it through its pointer). */
  function Store(g: GlobalState, f: Found, key: string, c: ClusterState): (g2: GlobalState)
    requires f.region in g.regions
    ensures SameExcept(g, g2, key)
    ensures key in g2.regions[f.region].clusters && g2.regions[f.region].clusters[key] == c
  {
    var g2 := PutRegion(g, f.region, RegionState(g.regions[f.region].clusters[key := c]));
    assert g2.regions[f.region].clusters - {key} == g.regions[f.region].clusters - {key};
    g2
  }

  /**
   * In a consistent state, a cluster found by its namespace ID and written
   * back with the same tenant identity leaves the state consistent, and a
   * lookup of that ID finds the new value.
   */
  lemma StoreThenFind(g: GlobalState, nsID: Uuid.Uuid, order: seq<string>, c: ClusterState)
    requires Consistent(g) && IsOrder(order, g.regions.Keys)
    requires FakeState.GetClusterByNsID(g, nsID, order).Ok?
    requires c.tenant.nsId == FakeState.GetClusterByNsID(g, nsID, order).value.cluster.tenant.nsId
    requires c.tenant.region == FakeState.GetClusterByNsID(g, nsID, order).value.cluster.tenant.region
    ensures Consistent(Store(g, FakeState.GetClusterByNsID(g, nsID, order).value, Uuid.ToString(nsID), c))
    ensures Store(g, FakeState.GetClusterByNsID(g, nsID, order).value, Uuid.ToString(nsID), c).regions.Keys == g.regions.Keys
    ensures FakeState.GetClusterByNsID(Store(g, FakeState.GetClusterByNsID(g, nsID, order).value, Uuid.ToString(nsID), c), nsID, order)
         == Ok(Found(FakeState.GetClusterByNsID(g, nsID, order).value.region, c))
  {
    var f := FakeState.GetClusterByNsID(g, nsID, order).value;
    var key := Uuid.ToString(nsID);
    var g2 := Store(g, f, key, c);
    assert key in g.regions[f.region].clusters && g.regions[f.region].clusters[key] == f.cluster;
    assert g2.regions == g.regions[f.region := RegionState(g.regions[f.region].clusters[key := c])];
    StoredConsistent(g, g2, f.region, key, c);
    var found := FakeState.GetClusterByNsID(g2, nsID, order);
    assert found.Ok?;
    assert found.value.region == f.region;
  }

  /** GetClusterByNsID: the tenant of the cluster stored under the ID. */
  function GetClusterByNsID(g: GlobalState, nsID: Uuid.Uuid, order: seq<string>): (r: Result<Tenant, Error>)
    requires IsOrder(order, g.regions.Keys)
    ensures r.Ok? <==> exists region :: region in g.regions && Uuid.ToString(nsID) in g.regions[region].clusters
    ensures r.Err? ==> Is(r.error, ClusterNotFound)
    ensures r.Ok? ==> r.value == FakeState.GetClusterByNsID(g, nsID, order).value.cluster.tenant
  {
    match FakeState.GetClusterByNsID(g, nsID, order)
    case Err(e) => Err(e)
    case Ok(f) => Ok(f.cluster.tenant)
  }

  /**
   * IsTenantNameExist: the region is created if needed and searched for
   * a tenant with the name; the answer is never an error.
   */
  function IsTenantNameExist(g: GlobalState, region: string, name: string, order: seq<string>): (res: (GlobalState, Result<bool, Error>))
    requires IsOrder(order, GetRegionState(g, region).1.clusters.Keys)
    ensures res.0 == GetRegionState(g, region).0 && res.1.Ok?
    ensures res.1.value <==> exists key :: (key in GetRegionState(g, region).1.clusters
                                            && GetRegionState(g, region).1.clusters[key].tenant.tenantName == name)
  {
    var (g1, r) := GetRegionState(g, region);
    (g1, Ok(FirstNamed(r, region, name, order).Ok?))
  }

  /**
   * GetClusterByRegionAndName: the region is created if needed and the
   * tenant of the first cluster with the name, in map order, is returned;
   * else ErrClusterNotFound naming the cluster.
   */
  function GetClusterByRegionAndName(g: GlobalState, region: string, name: string, order: seq<string>): (res: (GlobalState, Result<Tenant, Error>))
    requires IsOrder(order, GetRegionState(g, region).1.clusters.Keys)
    ensures res.0 == GetRegionState(g, region).0
    ensures res.1.Ok? ==> (res.1.value.tenantName == name
      && exists key :: key in GetRegionState(g, region).1.clusters && GetRegionState(g, region).1.clusters[key].tenant == res.1.value)
    ensures res.1.Err? ==> Is(res.1.error, ClusterNotFound) && ErrorText(res.1.error) == "cluster " + name + " not found: cluster not found"
  {
    var (g1, r) := GetRegionState(g, region);
    match FirstNamedIndex(r, name, order)
    case Some(i) => (g1, Ok(r.clusters[order[i]].tenant))
    case None =>
      var e := Wrapped(Sentinel(ClusterNotFound), "cluster " + name + " not found");
      assert Is(e, ClusterNotFound) && ErrorText(e) == "cluster " + name + " not found: cluster not found";
      (g1, Err(e))
  }

  /** The lookup by name finds a cluster exactly when IsTenantNameExist says the name is taken. */
  lemma LookupByNameAgreesWithExists(g: GlobalState, region: string, name: string, order: seq<string>)
    requires IsOrder(order, GetRegionState(g, region).1.clusters.Keys)
    ensures GetClusterByRegionAndName(g, region, name, order).1.Ok? <==> IsTenantNameExist(g, region, name, order).1 == Ok(true)
  {
    var r := GetRegionState(g, region).1;
    if FirstNamedIndex(r, name, order).None? {
      forall key | key in r.clusters
        ensures r.clusters[key].tenant.tenantName != name
      {
        var i :| 0 <= i < |order| && order[i] == key;
      }
    }
  }

  /** The four update operations and what each writes. */
  datatype Change =
    | SetImage(version: string)
    | SetResources(req: PostTenantResourcesRequestBody)
    | SetRwConfig(rwConfig: string)
    | SetEtcdConfig(etcdConfig: string)

  /** The tenant after a change: only the named field moves; resources go through the catalog. */
  function ApplyChange(t: Tenant, change: Change): (r: Outcome<Tenant>)
    ensures !r.Fail?
    ensures r.Panic? <==> (change.SetResources? && (change.req.compute.None? || change.req.compactor.None?
                                                    || change.req.frontend.None? || change.req.meta.None?))
    ensures r.Return? ==> (r.value.id == t.id && r.value.nsId == t.nsId && r.value.region == t.region
                           && r.value.tenantName == t.tenantName && r.value.tier == t.tier)
    ensures r.Return? && !change.SetImage? ==> r.value.imageTag == t.imageTag
    ensures r.Return? && !change.SetRwConfig? ==> r.value.rwConfig == t.rwConfig
    ensures r.Return? && !change.SetEtcdConfig? ==> r.value.etcdConfig == t.etcdConfig
    ensures r.Return? && !change.SetResources? ==> r.value.resources == t.resources
    ensures r.Return? && change.SetImage? ==> r.value.imageTag == change.version
    ensures r.Return? && change.SetRwConfig? ==> r.value.rwConfig == change.rwConfig
    ensures r.Return? && change.SetEtcdConfig? ==> r.value.etcdConfig == change.etcdConfig
    ensures r.Return? && change.SetResources? ==> (r.value.resources.components.etcd == t.resources.components.etcd
      && r.value.resources.metaStore == t.resources.metaStore
      && r.value.resources.components.compute == ComponentReqToComponent(change.req.compute).value
      && r.value.resources.components.meta == ComponentReqToComponent(change.req.meta).value)
  {
    match change
    case SetImage(v) => Return(t.(imageTag := v))
    case SetRwConfig(v) => Return(t.(rwConfig := v))
    case SetEtcdConfig(v) => Return(t.(etcdConfig := v))
    case SetResources(req) =>
      var compactor := ComponentReqToComponent(req.compactor);
      var compute := ComponentReqToComponent(req.compute);
      var frontend := ComponentReqToComponent(req.frontend);
      var meta := ComponentReqToComponent(req.meta);
      if compactor.Panic? || compute.Panic? || frontend.Panic? || meta.Panic? then Panic(NilDereference)
      else
        var cs := t.resources.components.(compute := compute.value, compactor := compactor.value,
                                          frontend := frontend.value, meta := meta.value);
        Return(t.(resources := t.resources.(components := cs)))
  }

  /**
   * The write-back of an update: the cluster is first changed where it was
   * found (the pointer is shared), then stored again under the ID in the
   * region its tenant names, created if needed.
   */
  function WriteBack(g: GlobalState, f: Found, nsID: Uuid.Uuid, c: ClusterState): (g2: GlobalState)
    requires f.region in g.regions
    ensures c.tenant.region == f.region ==> g2 == Store(g, f, Uuid.ToString(nsID), c)
  {
    var g1 := Store(g, f, Uuid.ToString(nsID), c);
    var (g2, r) := GetRegionState(g1, c.tenant.region);
    assert c.tenant.region == f.region ==> r.clusters[Uuid.ToString(nsID) := c] == r.clusters;
    PutRegion(g2, c.tenant.region, ReplaceCluster(r, nsID, c))
  }

  /**
   * The Update…ByNsIDAwait operations: the found cluster's tenant is
   * changed in place, then the cluster is stored again under the ID in the
   * region its tenant names.
   */
  function UpdateByNsIDAwait(g: GlobalState, nsID: Uuid.Uuid, order: seq<string>, change: Change): (res: (GlobalState, Outcome<()>))
    requires IsOrder(order, g.regions.Keys)
    ensures FakeState.GetClusterByNsID(g, nsID, order).Err? ==> res == (g, Fail(FakeState.GetClusterByNsID(g, nsID, order).error))
    ensures FakeState.GetClusterByNsID(g, nsID, order).Ok? ==>
      (res.1.Panic? <==> ApplyChange(FakeState.GetClusterByNsID(g, nsID, order).value.cluster.tenant, change).Panic?)
    ensures res.1.Return? ==> (FakeState.GetClusterByNsID(g, nsID, order).Ok?
      && var f := FakeState.GetClusterByNsID(g, nsID, order).value;
         res.0 == WriteBack(g, f, nsID, f.cluster.(tenant := ApplyChange(f.cluster.tenant, change).value)))
  {
    match FakeState.GetClusterByNsID(g, nsID, order)
    case Err(e) => (g, Fail(e))
    case Ok(f) =>
      match ApplyChange(f.cluster.tenant, change)
      case Fail(e) => (g, Fail(e))
      case Panic(p) => (g, Panic(p))
      case Return(t) =>
        (WriteBack(g, f, nsID, f.cluster.(tenant := t)), Return(()))
  }

  /**
   * In a consistent state an update that returns leaves the state
   * consistent, touches no other cluster, and a later lookup finds the
   * changed tenant.
   */
  lemma UpdateThenFind(g: GlobalState, nsID: Uuid.Uuid, order: seq<string>, change: Change)
    requires Consistent(g) && IsOrder(order, g.regions.Keys)
    requires UpdateByNsIDAwait(g, nsID, order, change).1.Return?
    ensures Consistent(UpdateByNsIDAwait(g, nsID, order, change).0)
    ensures SameExcept(g, UpdateByNsIDAwait(g, nsID, order, change).0, Uuid.ToString(nsID))
    ensures GetClusterByNsID(UpdateByNsIDAwait(g, nsID, order, change).0, nsID, order)
         == Ok(ApplyChange(GetClusterByNsID(g, nsID, order).value, change).value)
  {
    var f := FakeState.GetClusterByNsID(g, nsID, order).value;
    var c := f.cluster.(tenant := ApplyChange(f.cluster.tenant, change).value);
    StoreThenFind(g, nsID, order, c);
  }

  /**
   * DeleteClusterByNsIDAwait: an unknown ID is not an error; a known one is
   * removed from the region its tenant names. The answer is always nil.
   */
  function DeleteClusterByNsIDAwait(g: GlobalState, nsID: Uuid.Uuid, order: seq<string>): (res: (GlobalState, Option<Error>))
    requires IsOrder(order, g.regions.Keys)
    ensures res.1.None?
    ensures FakeState.GetClusterByNsID(g, nsID, order).Err? ==> res.0 == g
  {
    match FakeState.GetClusterByNsID(g, nsID, order)
    case Err(_) => (g, None)
    case Ok(f) =>
      var (g1, r) := GetRegionState(g, f.cluster.tenant.region);
      (PutRegion(g1, f.cluster.tenant.region, DeleteCluster(r, nsID)), None)
  }

  /** Removing a key from the one region that holds it keeps the state consistent and leaves no region holding it. */
  lemma RemoveKeyFromRegion(g: GlobalState, region: string, key: string)
    requires Consistent(g) && region in g.regions && key in g.regions[region].clusters
    ensures var g2 := GlobalState(g.regions[region := RegionState(g.regions[region].clusters - {key})]);
      Consistent(g2) && SameExcept(g, g2, key)
      && forall rg :: rg in g2.regions ==> key !in g2.regions[rg].clusters
  {
    var g2 := GlobalState(g.regions[region := RegionState(g.regions[region].clusters - {key})]);
    assert g2.regions[region].clusters - {key} == g.regions[region].clusters - {key};
    forall rg | rg in g2.regions
      ensures key !in g2.regions[rg].clusters
    {
      if rg != region {
        assert key !in g.regions[rg].clusters;
      }
    }
  }

  /** In a consistent state a delete removes exactly that cluster: no region holds the ID afterwards. */
  lemma DeleteThenMissing(g: GlobalState, nsID: Uuid.Uuid, order: seq<string>)
    requires Consistent(g) && IsOrder(order, g.regions.Keys)
    ensures Consistent(DeleteClusterByNsIDAwait(g, nsID, order).0)
    ensures SameExcept(g, DeleteClusterByNsIDAwait(g, nsID, order).0, Uuid.ToString(nsID))
    ensures Fresh(DeleteClusterByNsIDAwait(g, nsID, order).0, nsID)
  {
    var key := Uuid.ToString(nsID);
    var g2 := DeleteClusterByNsIDAwait(g, nsID, order).0;
    match FakeState.GetClusterByNsID(g, nsID, order)
    case Err(_) =>
    case Ok(f) =>
      var region := f.cluster.tenant.region;
      assert region == f.region;
      assert g2 == GlobalState(g.regions[region := RegionState(g.regions[region].clusters - {key})]);
      RemoveKeyFromRegion(g, region, key);
  }

  /** GetClusterUser: the cluster by ID, then the user by name. */
  function GetClusterUser(g: GlobalState, nsID: Uuid.Uuid, order: seq<string>, username: string): (r: Result<DBUser, Error>)
    requires IsOrder(order, g.regions.Keys)
    ensures r.Ok? <==> (FakeState.GetClusterByNsID(g, nsID, order).Ok?
                        && username in FakeState.GetClusterByNsID(g, nsID, order).value.cluster.users)
    ensures r.Ok? ==> r.value == FakeState.GetClusterByNsID(g, nsID, order).value.cluster.users[username]
    ensures FakeState.GetClusterByNsID(g, nsID, order).Err? ==> r.Err? && Is(r.error, ClusterNotFound)
    ensures FakeState.GetClusterByNsID(g, nsID, order).Ok? && r.Err? ==> Is(r.error, ClusterUserNotFound)
  {
    match FakeState.GetClusterByNsID(g, nsID, order)
    case Err(e) => Err(e)
    case Ok(f) => FakeState.GetClusterUser(f.cluster, username)
  }

  /** CreateCluserUser: the user record is stored under its name in the found cluster and returned. */
  function CreateCluserUser(g: GlobalState, nsID: Uuid.Uuid, order: seq<string>, username: string,
                            createDB: bool, superUser: bool, usesysid: nat): (res: (GlobalState, Result<DBUser, Error>))
    requires IsOrder(order, g.regions.Keys)
    ensures res.1.Ok? <==> FakeState.GetClusterByNsID(g, nsID, order).Ok?
    ensures res.1.Err? ==> res.0 == g && Is(res.1.error, ClusterNotFound)
    ensures res.1.Ok? ==> res.1.value == DBUser(username, superUser, createDB, usesysid)
  {
    match FakeState.GetClusterByNsID(g, nsID, order)
    case Err(e) => (g, Err(e))
    case Ok(f) =>
      var user := DBUser(username, superUser, createDB, usesysid);
      (Store(g, f, Uuid.ToString(nsID), AddClusterUser(f.cluster, user)), Ok(user))
  }

  /** In a consistent state a created user is what GetClusterUser then returns. */
  lemma CreateUserThenGet(g: GlobalState, nsID: Uuid.Uuid, order: seq<string>, username: string,
                          createDB: bool, superUser: bool, usesysid: nat)
    requires Consistent(g) && IsOrder(order, g.regions.Keys)
    requires CreateCluserUser(g, nsID, order, username, createDB, superUser, usesysid).1.Ok?
    ensures Consistent(CreateCluserUser(g, nsID, order, username, createDB, superUser, usesysid).0)
    ensures GetClusterUser(CreateCluserUser(g, nsID, order, username, createDB, superUser, usesysid).0, nsID, order, username)
         == Ok(DBUser(username, superUser, createDB, usesysid))
  {
    var f := FakeState.GetClusterByNsID(g, nsID, order).value;
    var c := AddClusterUser(f.cluster, DBUser(username, superUser, createDB, usesysid));
    StoreThenFind(g, nsID, order, c);
  }

  /** UpdateClusterUserPassword: nil exactly when the cluster and the user exist; the state is not touched. */
  function UpdateClusterUserPassword(g: GlobalState, nsID: Uuid.Uuid, order: seq<string>, username: string): (r: Option<Error>)
    requires IsOrder(order, g.regions.Keys)
    ensures r.None? <==> GetClusterUser(g, nsID, order, username).Ok?
    ensures r.Some? ==> r.value == GetClusterUser(g, nsID, order, username).error
  {
    match FakeState.GetClusterByNsID(g, nsID, order)
    case Err(e) => Some(e)
    case Ok(f) =>
      match FakeState.GetClusterUser(f.cluster, username)
      case Err(e) => Some(e)
      case Ok(_) => None
  }

  /** DeleteClusterUser: the name is removed from the found cluster; an absent name is not an error. */
  function DeleteClusterUser(g: GlobalState, nsID: Uuid.Uuid, order: seq<string>, username: string): (res: (GlobalState, Option<Error>))
    requires IsOrder(order, g.regions.Keys)
    ensures res.1.None? <==> FakeState.GetClusterByNsID(g, nsID, order).Ok?
    ensures res.1.Some? ==> res.0 == g && Is(res.1.value, ClusterNotFound)
  {
    match FakeState.GetClusterByNsID(g, nsID, order)
    case Err(e) => (g, Some(e))
    case Ok(f) => (Store(g, f, Uuid.ToString(nsID), FakeState.DeleteClusterUser(f.cluster, username)), None)
  }

  /** In a consistent state a deleted user is no longer found, while the cluster still is. */
  lemma DeleteUserThenGet(g: GlobalState, nsID: Uuid.Uuid, order: seq<string>, username: string)
    requires Consistent(g) && IsOrder(order, g.regions.Keys)
    requires DeleteClusterUser(g, nsID, order, username).1.None?
    ensures Consistent(DeleteClusterUser(g, nsID, order, username).0)
    ensures GetClusterByNsID(DeleteClusterUser(g, nsID, order, username).0, nsID, order).Ok?
    ensures GetClusterUser(DeleteClusterUser(g, nsID, order, username).0, nsID, order, username).Err?
  {
    var f := FakeState.GetClusterByNsID(g, nsID, order).value;
    StoreThenFind(g, nsID, order, FakeState.DeleteClusterUser(f.cluster, username));
  }

  /**
   * CreatePrivateLinkAwait: a link with the given ID, the request's name
   * and target, the fake endpoint, CREATED and ACCEPTED, owned by the
   * cluster's tenant ID, added to the cluster's link map; a nil map panics.
   */
  function CreatePrivateLinkAwait(g: GlobalState, nsID: Uuid.Uuid, order: seq<string>, req: PostPrivateLinkRequestBody,
                                  linkID: Uuid.Uuid): (res: (GlobalState, Outcome<PrivateLinkInfo>))
    requires IsOrder(order, g.regions.Keys)
    ensures FakeState.GetClusterByNsID(g, nsID, order).Err? ==> res == (g, Fail(FakeState.GetClusterByNsID(g, nsID, order).error))
    ensures res.1.Panic? <==> (FakeState.GetClusterByNsID(g, nsID, order).Ok?
                               && FakeState.GetClusterByNsID(g, nsID, order).value.cluster.privateLinks.None?)
    ensures res.1.Return? ==> (res.1.value.clusterNsId == nsID && res.1.value.link.Some?
      && res.1.value.link.value == PrivateLink(linkID, req.connectionName, Some(req.target), Some(FakeEndpoint), Created, Accepted,
                                               FakeState.GetClusterByNsID(g, nsID, order).value.cluster.tenant.id))
  {
    match FakeState.GetClusterByNsID(g, nsID, order)
    case Err(e) => (g, Fail(e))
    case Ok(f) =>
      if f.cluster.privateLinks.None? then (g, Panic(NilMapWrite))
      else
        var pl := PrivateLink(linkID, req.connectionName, Some(req.target), Some(FakeEndpoint), Created, Accepted, f.cluster.tenant.id);
        (Store(g, f, Uuid.ToString(nsID), AddPrivateLink(f.cluster, pl)), Return(PrivateLinkInfo(Some(pl), nsID)))
  }

  /**
   * A cluster made by CreateClusterAwait never gets a link map, so creating
   * a private link on it always panics.
   */
  lemma CreatedClusterRejectsLinks(g: GlobalState, region: string, req: TenantRequest, nsID: Uuid.Uuid, order: seq<string>,
                                   linkReq: PostPrivateLinkRequestBody, linkID: Uuid.Uuid)
    requires Consistent(g) && Fresh(g, nsID)
    requires CreateClusterAwait(g, region, req, nsID).1.Return?
    requires IsOrder(order, CreateClusterAwait(g, region, req, nsID).0.regions.Keys)
    ensures CreatePrivateLinkAwait(CreateClusterAwait(g, region, req, nsID).0, nsID, order, linkReq, linkID).1.Panic?
  {
    CreateThenFind(g, region, req, nsID, order);
  }

  /** DeletePrivateLinkAwait: the link is removed from the found cluster; an absent link is not an error. */
  function DeletePrivateLinkAwait(g: GlobalState, nsID: Uuid.Uuid, order: seq<string>, linkID: Uuid.Uuid): (res: (GlobalState, Option<Error>))
    requires IsOrder(order, g.regions.Keys)
    ensures res.1.None? <==> FakeState.GetClusterByNsID(g, nsID, order).Ok?
    ensures res.1.Some? ==> res.0 == g && Is(res.1.value, ClusterNotFound)
  {
    match FakeState.GetClusterByNsID(g, nsID, order)
    case Err(e) => (g, Some(e))
    case Ok(f) => (Store(g, f, Uuid.ToString(nsID), DeletePrivateLink(f.cluster, linkID)), None)
  }

  /** The cluster at `key` of region `rg` holds the link with that ID. */
  predicate HoldsLink(g: GlobalState, rg: string, key: string, id: Uuid.Uuid)
  {
    rg in g.regions && key in g.regions[rg].clusters && FakeState.GetPrivateLink(g.regions[rg].clusters[key], id).Ok?
  }

  /** The answer for a held link: the link and its cluster's namespace ID. */
  function LinkInfo(g: GlobalState, rg: string, key: string, id: Uuid.Uuid): PrivateLinkInfo
    requires HoldsLink(g, rg, key, id)
  {
    var c := g.regions[rg].clusters[key];
    PrivateLinkInfo(Some(FakeState.GetPrivateLink(c, id).value), c.tenant.nsId)
  }

  /** The index of the first cluster of `keys` (one region's map order) holding the link. */
  function FirstHolder(g: GlobalState, rg: string, keys: seq<string>, id: Uuid.Uuid): (r: Option<nat>)
    ensures r.Some? ==> r.value < |keys| && HoldsLink(g, rg, keys[r.value], id)
    ensures r.Some? ==> forall i :: 0 <= i < r.value ==> !HoldsLink(g, rg, keys[i], id)
    ensures r.None? <==> forall i :: 0 <= i < |keys| ==> !HoldsLink(g, rg, keys[i], id)
  {
    if |keys| == 0 then None
    else if HoldsLink(g, rg, keys[0], id) then Some(0)
    else match FirstHolder(g, rg, keys[1..], id)
      case Some(i) => Some(i + 1)
      case None => None
  }

  /** A visiting order for the nested ranges: regions in `regions`, the clusters of each in `clusters[region]`. */
  predicate IsNestedOrder(g: GlobalState, regions: seq<string>, clusters: map<string, seq<string>>)
  {
    IsOrder(regions, g.regions.Keys)
    && forall rg :: rg in g.regions ==> rg in clusters && IsOrder(clusters[rg], g.regions[rg].clusters.Keys)
  }

  /** The first region of `regions`, then the first cluster in it, holding the link. */
  function LinkInRegions(g: GlobalState, regions: seq<string>, clusters: map<string, seq<string>>, id: Uuid.Uuid): (r: Option<PrivateLinkInfo>)
    requires forall i :: 0 <= i < |regions| ==> regions[i] in g.regions
    requires forall rg :: rg in g.regions ==> rg in clusters && IsOrder(clusters[rg], g.regions[rg].clusters.Keys)
    ensures r.None? <==> forall i, key :: 0 <= i < |regions| ==> !HoldsLink(g, regions[i], key, id)
    ensures r.Some? ==> exists rg, key :: HoldsLink(g, rg, key, id) && r.value == LinkInfo(g, rg, key, id)
  {
    if |regions| == 0 then None
    else
      var rg := regions[0];
      match FirstHolder(g, rg, clusters[rg], id)
      case Some(i) => Some(LinkInfo(g, rg, clusters[rg][i], id))
      case None =>
        assert forall key :: !HoldsLink(g, rg, key, id) by {
          assert IsOrder(clusters[rg], g.regions[rg].clusters.Keys);
          forall key | key in g.regions[rg].clusters
            ensures !HoldsLink(g, rg, key, id)
          {
            var i :| 0 <= i < |clusters[rg]| && clusters[rg][i] == key;
          }
        }
        var r := LinkInRegions(g, regions[1..], clusters, id);
        assert forall i :: 1 <= i < |regions| ==> regions[i] == regions[1..][i - 1];
        r
  }

  /**
   * GetPrivateLink: the link from the first cluster, in map order, that
   * holds it; else ErrPrivateLinkNotFound naming the ID.
   */
  function GetPrivateLink(g: GlobalState, id: Uuid.Uuid, regions: seq<string>, clusters: map<string, seq<string>>): (r: Result<PrivateLinkInfo, Error>)
    requires IsNestedOrder(g, regions, clusters)
    ensures r.Ok? <==> exists rg, key :: HoldsLink(g, rg, key, id)
    ensures r.Ok? ==> exists rg, key :: HoldsLink(g, rg, key, id) && r.value == LinkInfo(g, rg, key, id)
    ensures r.Err? ==> Is(r.error, PrivateLinkNotFound)
    ensures r.Err? ==> ErrorText(r.error) == "private link " + Uuid.ToString(id) + " not found: private link not found"
  {
    match LinkInRegions(g, regions, clusters, id)
    case Some(info) => Ok(info)
    case None =>
      assert forall rg, key :: !HoldsLink(g, rg, key, id) by {
        forall rg, key | rg in g.regions
          ensures !HoldsLink(g, rg, key, id)
        {
          var i :| 0 <= i < |regions| && regions[i] == rg;
        }
      }
      Err(Wrapped(Sentinel(PrivateLinkNotFound), "private link " + Uuid.ToString(id) + " not found"))
  }

  /** Once a link has been created, GetPrivateLink finds a link under its ID, whatever the map order. */
  lemma CreateLinkThenGet(g: GlobalState, nsID: Uuid.Uuid, order: seq<string>, req: PostPrivateLinkRequestBody, linkID: Uuid.Uuid,
                          regions: seq<string>, clusters: map<string, seq<string>>)
    requires IsOrder(order, g.regions.Keys)
    requires CreatePrivateLinkAwait(g, nsID, order, req, linkID).1.Return?
    requires IsNestedOrder(CreatePrivateLinkAwait(g, nsID, order, req, linkID).0, regions, clusters)
    ensures GetPrivateLink(CreatePrivateLinkAwait(g, nsID, order, req, linkID).0, linkID, regions, clusters).Ok?
  {
    var f := FakeState.GetClusterByNsID(g, nsID, order).value;
    var info := CreatePrivateLinkAwait(g, nsID, order, req, linkID).1.value;
    var g2 := CreatePrivateLinkAwait(g, nsID, order, req, linkID).0;
    var key := Uuid.ToString(nsID);
    GetAfterAddPrivateLink(f.cluster, info.link.value, linkID);
    assert HoldsLink(g2, f.region, key, linkID);
  }

  /** GetAvailableComponentTypes' component switch: five kinds; etcd reads the etcd node list. */
  function ComponentList(tier: Tier, component: string): (r: Option<seq<AvailableComponentType>>)
    ensures r.Some? <==> component in {InternalRegion.ComponentCompute, InternalRegion.ComponentCompactor,
                                       InternalRegion.ComponentFrontend, InternalRegion.ComponentMeta, InternalRegion.ComponentEtcd}
    ensures component == InternalRegion.ComponentEtcd ==> r == Some(tier.availableEtcdNodes)
  {
    if component == InternalRegion.ComponentCompute then Some(tier.availableComputeNodes)
    else if component == InternalRegion.ComponentCompactor then Some(tier.availableCompactorNodes)
    else if component == InternalRegion.ComponentFrontend then Some(tier.availableFrontendNodes)
    else if component == InternalRegion.ComponentMeta then Some(tier.availableMetaNodes)
    else if component == InternalRegion.ComponentEtcd then Some(tier.availableEtcdNodes)
    else None
  }

  /** GetAvailableComponentTypes: the first fake tier with the ID, then its list for the component. */
  function GetAvailableComponentTypes(targetTier: string, component: string): (r: Result<seq<AvailableComponentType>, Error>)
    ensures InternalRegion.FirstTier(FakeTiers, targetTier).None? ==> r == Err(Plain("tier " + targetTier + " not found"))
    ensures InternalRegion.FirstTier(FakeTiers, targetTier).Some? ==>
      r == (match ComponentList(FakeTiers[InternalRegion.FirstTier(FakeTiers, targetTier).value], component)
            case None => Err(Plain("component " + component + " not found"))
            case Some(l) => Ok(l))
  {
    match InternalRegion.FirstTier(FakeTiers, targetTier)
    case None => Err(Plain("tier " + targetTier + " not found"))
    case Some(i) =>
      match ComponentList(FakeTiers[i], component)
      case None => Err(Plain("component " + component + " not found"))
      case Some(l) => Ok(l)
  }

  /**
   * Every fake tier offers the whole catalog for each of the five kinds;
   * any other tier or component is an error.
   */
  lemma FakeCatalogEverywhere(targetTier: string, component: string)
    ensures GetAvailableComponentTypes(targetTier, component).Ok? <==>
      (targetTier in {Standard, Byoc, Invited}
       && component in {InternalRegion.ComponentCompute, InternalRegion.ComponentCompactor,
                        InternalRegion.ComponentFrontend, InternalRegion.ComponentMeta, InternalRegion.ComponentEtcd})
    ensures GetAvailableComponentTypes(targetTier, component).Ok? ==> GetAvailableComponentTypes(targetTier, component).value == Catalog
  {
    var first := InternalRegion.FirstTier(FakeTiers, targetTier);
    if targetTier in {Standard, Byoc, Invited} {
      assert FakeTiers[if targetTier == Standard then 0 else if targetTier == Byoc then 1 else 2].id == Some(targetTier);
    } else {
      assert forall i :: 0 <= i < |FakeTiers| ==> FakeTiers[i].id != Some(targetTier);
    }
  }
}
