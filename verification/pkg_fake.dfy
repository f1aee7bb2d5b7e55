/**
 * pkg/cloudsdk/fake/fake.go: the older fake cloud client. Its global state
 * maps a region name to a list of tenants; lookups take the first tenant
 * with the namespace ID, deletes remove the first one, updates overwrite
 * the first one in place. The state is passed in and returned; the fresh
 * namespace ID is a parameter; the visiting order of a Go map range is a
 * parameter.
 */
module PkgFake {
  import opened Wrappers
  import opened GoErrors
  import opened Mgmt
  import opened GoMaps
  import Fake
  import PkgRegion
  import Uuid

  /** RegionState: the region's tenants, in the order they were added. */
  datatype RegionState = RegionState(clusters: seq<Tenant>)

  /** GlobalState: a region state per region name. */
  datatype GlobalState = GlobalState(regionStates: map<string, RegionState>)

  function PutRegion(g: GlobalState, region: string, r: RegionState): GlobalState
  {
    GlobalState(g.regionStates[region := r])
  }

  /** GetRegionState: a missing region is created empty and stored before it is returned. */
  function GetRegionState(g: GlobalState, region: string): (res: (GlobalState, RegionState))
    ensures region in res.0.regionStates && res.0.regionStates[region] == res.1
    ensures region in g.regionStates ==> res == (g, g.regionStates[region])
    ensures region !in g.regionStates ==> res.1 == RegionState([]) && res.0 == PutRegion(g, region, RegionState([]))
  {
    if region in g.regionStates then (g, g.regionStates[region])
    else (PutRegion(g, region, RegionState([])), RegionState([]))
  }

  /** The position of the first tenant with the namespace ID. */
  function IndexOf(cs: seq<Tenant>, nsID: Uuid.Uuid): (r: Option<nat>)
    ensures r.Some? ==> r.value < |cs| && cs[r.value].nsId == nsID
    ensures r.Some? ==> forall j :: 0 <= j < r.value ==> cs[j].nsId != nsID
    ensures r.None? <==> forall j :: 0 <= j < |cs| ==> cs[j].nsId != nsID
  {
    if |cs| == 0 then None
    else if cs[0].nsId == nsID then Some(0)
    else match IndexOf(cs[1..], nsID)
      case None => None
      case Some(i) => Some(i + 1)
  }

  /** RegionState.GetClusterByNsID: the first tenant with the ID, else the bare ErrClusterNotFound. */
  function RegionGet(r: RegionState, nsID: Uuid.Uuid): (res: Result<Tenant, Error>)
    ensures res.Ok? <==> exists i :: 0 <= i < |r.clusters| && r.clusters[i].nsId == nsID
    ensures res.Ok? ==> res.value.nsId == nsID && res.value == r.clusters[IndexOf(r.clusters, nsID).value]
    ensures res.Err? ==> res.error == Sentinel(PkgClusterNotFound)
  {
    match IndexOf(r.clusters, nsID)
    case None => Err(Sentinel(PkgClusterNotFound))
    case Some(i) => Ok(r.clusters[i])
  }

  /** AddCluster: the tenant goes at the end; the earlier ones keep their places. */
  function AddCluster(r: RegionState, c: Tenant): (res: RegionState)
    ensures |res.clusters| == |r.clusters| + 1 && res.clusters[|r.clusters|] == c
    ensures forall i :: 0 <= i < |r.clusters| ==> res.clusters[i] == r.clusters[i]
  {
    RegionState(r.clusters + [c])
  }

  /** DeleteCluster: the first tenant with the ID goes; the others keep their order. */
  function DeleteCluster(r: RegionState, nsID: Uuid.Uuid): (res: RegionState)
    ensures IndexOf(r.clusters, nsID).None? ==> res == r
    ensures IndexOf(r.clusters, nsID).Some? ==> (var i := IndexOf(r.clusters, nsID).value;
      |res.clusters| == |r.clusters| - 1
      && (forall j :: 0 <= j < i ==> res.clusters[j] == r.clusters[j])
      && (forall j :: i <= j < |res.clusters| ==> res.clusters[j] == r.clusters[j + 1]))
    ensures multiset(res.clusters) <= multiset(r.clusters)
  {
    match IndexOf(r.clusters, nsID)
    case None => r
    case Some(i) =>
      assert r.clusters == r.clusters[..i] + [r.clusters[i]] + r.clusters[i + 1..];
      RegionState(r.clusters[..i] + r.clusters[i + 1..])
  }

  /** ReplaceCluster: the first tenant with the ID is overwritten in place; nothing else moves. */
  function ReplaceCluster(r: RegionState, nsID: Uuid.Uuid, c: Tenant): (res: RegionState)
    ensures |res.clusters| == |r.clusters|
    ensures IndexOf(r.clusters, nsID).None? ==> res == r
    ensures IndexOf(r.clusters, nsID).Some? ==> (var i := IndexOf(r.clusters, nsID).value;
      res.clusters[i] == c && forall j :: 0 <= j < |r.clusters| && j != i ==> res.clusters[j] == r.clusters[j])
  {
    match IndexOf(r.clusters, nsID)
    case None => r
    case Some(i) => RegionState(r.clusters[i := c])
  }

  /** A lookup after an add finds what it found before, or else the added tenant when its ID matches. */
  lemma RegionGetAfterAdd(r: RegionState, c: Tenant, nsID: Uuid.Uuid)
    ensures RegionGet(r, nsID).Ok? ==> RegionGet(AddCluster(r, c), nsID) == RegionGet(r, nsID)
    ensures RegionGet(r, nsID).Err? ==> RegionGet(AddCluster(r, c), nsID) == (if c.nsId == nsID then Ok(c) else RegionGet(r, nsID))
  {
    var cs := AddCluster(r, c).clusters;
    if RegionGet(r, nsID).Ok? {
      var i := IndexOf(r.clusters, nsID).value;
      assert cs[i].nsId == nsID;
      IndexOfIs(cs, nsID, i);
    } else if c.nsId == nsID {
      IndexOfIs(cs, nsID, |r.clusters|);
    }
  }

  /** The ID occurs at most once in the region. */
  predicate AtMostOnce(r: RegionState, nsID: Uuid.Uuid)
  {
    forall i, j :: 0 <= i < j < |r.clusters| && r.clusters[i].nsId == nsID ==> r.clusters[j].nsId != nsID
  }

  /** The first position holding the ID is pinned down by its two defining facts. */
  lemma IndexOfIs(cs: seq<Tenant>, nsID: Uuid.Uuid, k: nat)
    requires k < |cs| && cs[k].nsId == nsID
    requires forall j :: 0 <= j < k ==> cs[j].nsId != nsID
    ensures IndexOf(cs, nsID) == Some(k)
  {
    assert IndexOf(cs, nsID).Some?;
  }

  /** After a delete an ID held once is gone. */
  lemma DeleteRemovesOnce(r: RegionState, nsID: Uuid.Uuid)
    requires AtMostOnce(r, nsID)
    ensures RegionGet(DeleteCluster(r, nsID), nsID).Err?
  {
    var cs := DeleteCluster(r, nsID).clusters;
    match IndexOf(r.clusters, nsID)
    case None =>
    case Some(i) =>
      forall j | 0 <= j < |cs| ensures cs[j].nsId != nsID {
        if j >= i {
          assert cs[j] == r.clusters[j + 1];
        }
      }
  }

  /** A delete leaves the lookup of every other ID as it was. */
  lemma DeleteKeepsOthers(r: RegionState, nsID: Uuid.Uuid, other: Uuid.Uuid)
    requires other != nsID
    ensures RegionGet(DeleteCluster(r, nsID), other) == RegionGet(r, other)
  {
    var cs := DeleteCluster(r, nsID).clusters;
    match IndexOf(r.clusters, nsID)
    case None =>
    case Some(i) =>
      match IndexOf(r.clusters, other)
      case None =>
        forall j | 0 <= j < |cs| ensures cs[j].nsId != other {
          if j >= i {
            assert cs[j] == r.clusters[j + 1];
          }
        }
      case Some(k) =>
        assert k != i;
        var k' := if k < i then k else k - 1;
        assert cs[k'] == r.clusters[k];
        forall j | 0 <= j < k' ensures cs[j].nsId != other {
          if j >= i {
            assert cs[j] == r.clusters[j + 1];
          }
        }
        IndexOfIs(cs, other, k');
  }

  /** Only the first of two tenants with the same ID is deleted: the second is then found. */
  lemma DeleteKeepsLaterDuplicate(r: RegionState, nsID: Uuid.Uuid, i: nat, j: nat)
    requires i < j < |r.clusters| && r.clusters[i].nsId == nsID && r.clusters[j].nsId == nsID
    requires forall k :: 0 <= k < |r.clusters| && k != i && k != j ==> r.clusters[k].nsId != nsID
    ensures RegionGet(DeleteCluster(r, nsID), nsID) == Ok(r.clusters[j])
  {
    var cs := DeleteCluster(r, nsID).clusters;
    assert IndexOf(r.clusters, nsID) == Some(i);
    assert cs[j - 1] == r.clusters[j];
    forall k | 0 <= k < j - 1 ensures cs[k].nsId != nsID {
      if k >= i { assert cs[k] == r.clusters[k + 1]; }
    }
    IndexOfIs(cs, nsID, j - 1);
  }

  /** After a replace with a tenant of the same ID, that ID finds the new tenant. */
  lemma ReplaceThenGet(r: RegionState, nsID: Uuid.Uuid, c: Tenant)
    requires c.nsId == nsID
    ensures RegionGet(r, nsID).Ok? ==> RegionGet(ReplaceCluster(r, nsID, c), nsID) == Ok(c)
    ensures RegionGet(r, nsID).Err? ==> ReplaceCluster(r, nsID, c) == r
  {
    match IndexOf(r.clusters, nsID)
    case None =>
    case Some(i) =>
      var cs := ReplaceCluster(r, nsID, c).clusters;
      IndexOfIs(cs, nsID, i);
  }

  /** A replace leaves the lookup of every other ID as it was. */
  lemma ReplaceKeepsOthers(r: RegionState, nsID: Uuid.Uuid, c: Tenant, other: Uuid.Uuid)
    requires c.nsId == nsID && other != nsID
    ensures RegionGet(ReplaceCluster(r, nsID, c), other) == RegionGet(r, other)
  {
    match IndexOf(r.clusters, nsID)
    case None =>
    case Some(i) =>
      var cs := ReplaceCluster(r, nsID, c).clusters;
      match IndexOf(r.clusters, other)
      case None =>
        assert forall j :: 0 <= j < |cs| ==> cs[j].nsId != other;
      case Some(k) =>
        assert cs[k] == r.clusters[k];
        IndexOfIs(cs, other, k);
  }

  /** The region holds a tenant with the ID. */
  predicate HeldIn(g: GlobalState, nsID: Uuid.Uuid, region: string)
  {
    region in g.regionStates && RegionGet(g.regionStates[region], nsID).Ok?
  }

  /** The first region in `order` that holds the ID. */
  function FirstRegion(g: GlobalState, nsID: Uuid.Uuid, order: seq<string>): (r: Option<nat>)
    requires forall i :: 0 <= i < |order| ==> order[i] in g.regionStates
    ensures r.Some? ==> r.value < |order| && HeldIn(g, nsID, order[r.value])
    ensures r.Some? ==> forall i :: 0 <= i < r.value ==> !HeldIn(g, nsID, order[i])
    ensures r.None? <==> forall i :: 0 <= i < |order| ==> !HeldIn(g, nsID, order[i])
  {
    if |order| == 0 then None
    else if HeldIn(g, nsID, order[0]) then Some(0)
    else match FirstRegion(g, nsID, order[1..])
      case None => None
      case Some(i) => Some(i + 1)
  }

  /**
   * GlobalState.GetClusterByNsID: the regions are visited in map order and
   * the first that holds the ID answers with its first such tenant; else
   * the bare ErrClusterNotFound.
   */
  function GetClusterByNsID(g: GlobalState, nsID: Uuid.Uuid, order: seq<string>): (res: Result<Tenant, Error>)
    requires IsOrder(order, g.regionStates.Keys)
    ensures res.Ok? <==> exists region :: HeldIn(g, nsID, region)
    ensures res.Ok? ==> res.value.nsId == nsID
    ensures res.Ok? ==> exists region :: HeldIn(g, nsID, region) && RegionGet(g.regionStates[region], nsID) == res
    ensures res.Err? ==> res.error == Sentinel(PkgClusterNotFound)
  {
    match FirstRegion(g, nsID, order)
    case Some(i) => RegionGet(g.regionStates[order[i]], nsID)
    case None =>
      assert forall region :: !HeldIn(g, nsID, region) by {
        forall region | region in g.regionStates ensures !HeldIn(g, nsID, region) {
          var i :| 0 <= i < |order| && order[i] == region;
        }
      }
      Err(Sentinel(PkgClusterNotFound))
  }

  /** When exactly one region holds the ID, the map order does not matter: that region answers. */
  lemma FoundWhereHeld(g: GlobalState, nsID: Uuid.Uuid, order: seq<string>, region: string)
    requires IsOrder(order, g.regionStates.Keys)
    requires HeldIn(g, nsID, region)
    requires forall other :: other != region ==> !HeldIn(g, nsID, other)
    ensures GetClusterByNsID(g, nsID, order) == RegionGet(g.regionStates[region], nsID)
  {
  }

  /** DeleteClusterByNsID: every region drops its first tenant with the ID; the answer is always nil. */
  function DeleteClusterByNsID(g: GlobalState, nsID: Uuid.Uuid): (res: (GlobalState, Option<Error>))
    ensures res.1.None?
    ensures res.0.regionStates.Keys == g.regionStates.Keys
    ensures forall region :: region in g.regionStates ==> res.0.regionStates[region] == DeleteCluster(g.regionStates[region], nsID)
  {
    (GlobalState(map region | region in g.regionStates :: DeleteCluster(g.regionStates[region], nsID)), None)
  }

  /** Two states with the same regions, whose regions answer alike for an ID, pick the same first region. */
  lemma {:induction false} FirstRegionAlike(g: GlobalState, g2: GlobalState, nsID: Uuid.Uuid, order: seq<string>)
    requires g.regionStates.Keys == g2.regionStates.Keys
    requires forall i :: 0 <= i < |order| ==> order[i] in g.regionStates
    requires forall rg :: rg in g.regionStates ==> RegionGet(g2.regionStates[rg], nsID) == RegionGet(g.regionStates[rg], nsID)
    ensures FirstRegion(g2, nsID, order) == FirstRegion(g, nsID, order)
    decreases |order|
  {
    if |order| > 0 {
      assert forall i :: 0 <= i < |order[1..]| ==> order[1..][i] == order[i + 1];
      assert forall i :: 0 <= i < |order[1..]| ==> order[1..][i] in g2.regionStates;
      FirstRegionAlike(g, g2, nsID, order[1..]);
      assert HeldIn(g2, nsID, order[0]) == HeldIn(g, nsID, order[0]);
    }
  }

  /** Such states answer a lookup of that ID alike. */
  lemma LookupsAlike(g: GlobalState, g2: GlobalState, nsID: Uuid.Uuid, order: seq<string>)
    requires g.regionStates.Keys == g2.regionStates.Keys
    requires IsOrder(order, g.regionStates.Keys)
    requires forall rg :: rg in g.regionStates ==> RegionGet(g2.regionStates[rg], nsID) == RegionGet(g.regionStates[rg], nsID)
    ensures GetClusterByNsID(g2, nsID, order) == GetClusterByNsID(g, nsID, order)
  {
    FirstRegionAlike(g, g2, nsID, order);
  }

  /** When no region holds the ID twice, no region holds it after a delete. */
  lemma DeleteThenMissing(g: GlobalState, nsID: Uuid.Uuid, order: seq<string>)
    requires IsOrder(order, g.regionStates.Keys)
    requires forall region :: region in g.regionStates ==> AtMostOnce(g.regionStates[region], nsID)
    ensures GetClusterByNsID(DeleteClusterByNsID(g, nsID).0, nsID, order).Err?
  {
    var g2 := DeleteClusterByNsID(g, nsID).0;
    forall region | region in g2.regionStates
      ensures !HeldIn(g2, nsID, region)
    {
      DeleteRemovesOnce(g.regionStates[region], nsID);
    }
  }

  /** A delete leaves the lookup of every other ID as it was. */
  lemma DeleteKeepsOtherLookups(g: GlobalState, nsID: Uuid.Uuid, order: seq<string>, other: Uuid.Uuid)
    requires IsOrder(order, g.regionStates.Keys)
    requires other != nsID
    ensures GetClusterByNsID(DeleteClusterByNsID(g, nsID).0, other, order) == GetClusterByNsID(g, other, order)
  {
    var g2 := DeleteClusterByNsID(g, nsID).0;
    forall region | region in g.regionStates
      ensures RegionGet(g2.regionStates[region], other) == RegionGet(g.regionStates[region], other)
    {
      DeleteKeepsOthers(g.regionStates[region], nsID, other);
    }
    LookupsAlike(g, g2, other, order);
  }

  /** The position of the first tenant with the name. */
  function FirstNamed(cs: seq<Tenant>, name: string): (r: Option<nat>)
    ensures r.Some? ==> r.value < |cs| && cs[r.value].tenantName == name
    ensures r.Some? ==> forall j :: 0 <= j < r.value ==> cs[j].tenantName != name
    ensures r.None? <==> forall j :: 0 <= j < |cs| ==> cs[j].tenantName != name
  {
    if |cs| == 0 then None
    else if cs[0].tenantName == name then Some(0)
    else match FirstNamed(cs[1..], name)
      case None => None
      case Some(i) => Some(i + 1)
  }

  /**
   * GetNsIDByRegionAndName: the region is created if needed; the ID of its
   * first tenant with the name, else the nil UUID.
   */
  function GetNsIDByRegionAndName(g: GlobalState, region: string, name: string): (res: (GlobalState, Uuid.Uuid))
    ensures res.0 == GetRegionState(g, region).0
    ensures var cs := GetRegionState(g, region).1.clusters;
      (FirstNamed(cs, name).None? ==> res.1 == Uuid.Nil)
      && (FirstNamed(cs, name).Some? ==> res.1 == cs[FirstNamed(cs, name).value].nsId)
  {
    var (g1, r) := GetRegionState(g, region);
    match FirstNamed(r.clusters, name)
    case None => (g1, Uuid.Nil)
    case Some(i) => (g1, r.clusters[i].nsId)
  }

  /** IsTenantNameExist: the region is created if needed; true exactly when one of its tenants has the name. */
  function IsTenantNameExist(g: GlobalState, region: string, name: string): (res: (GlobalState, bool))
    ensures res.0 == GetRegionState(g, region).0
    ensures res.1 <==> exists i :: (0 <= i < |GetRegionState(g, region).1.clusters|
                                    && GetRegionState(g, region).1.clusters[i].tenantName == name)
  {
    var (g1, r) := GetRegionState(g, region);
    (g1, FirstNamed(r.clusters, name).Some?)
  }

  /** A name that exists resolves to the ID of a tenant of that region with that name. */
  lemma NameResolves(g: GlobalState, region: string, name: string)
    requires IsTenantNameExist(g, region, name).1
    ensures var cs := GetRegionState(g, region).1.clusters;
      exists i :: 0 <= i < |cs| && cs[i].tenantName == name && cs[i].nsId == GetNsIDByRegionAndName(g, region, name).1
  {
    var cs := GetRegionState(g, region).1.clusters;
    var i := FirstNamed(cs, name).value;
    assert cs[i].tenantName == name && cs[i].nsId == GetNsIDByRegionAndName(g, region, name).1;
  }

  /**
   * reqResouceToClusterResource: the four pointer components through the
   * catalog, the etcd component dereferenced from its lookup (so a type
   * not in the catalog is a nil dereference), and the three file-cache and
   * volume fields copied; a nil request is dereferenced.
   */
  function ReqResourceToClusterResource(req: Option<TenantResourceRequest>): (r: Outcome<TenantResource>)
    ensures !r.Fail?
    ensures r.Panic? <==> (req.None?
      || req.value.components.compute.None? || req.value.components.compactor.None?
      || req.value.components.frontend.None? || req.value.components.meta.None?
      || Fake.CatalogIndex(req.value.components.etcd.componentTypeId).None?)
    ensures r.Return? ==> (r.value.enableComputeFileCache == req.value.enableComputeFileCache
      && r.value.etcdVolumeSizeGiB == req.value.etcdVolumeSizeGiB
      && r.value.computeFileCacheSizeGiB == req.value.computeFileCacheSizeGiB
      && r.value.components.compute == Fake.ComponentReqToComponent(req.value.components.compute).value
      && r.value.components.compactor == Fake.ComponentReqToComponent(req.value.components.compactor).value
      && r.value.components.frontend == Fake.ComponentReqToComponent(req.value.components.frontend).value
      && r.value.components.meta == Fake.ComponentReqToComponent(req.value.components.meta).value
      && Fake.ComponentReqToComponent(Some(req.value.components.etcd)) == Return(Some(r.value.components.etcd))
      && r.value.metaStore.None?)
  {
    match req
    case None => Panic(NilDereference)
    case Some(q) =>
      var compute := Fake.ComponentReqToComponent(q.components.compute);
      var compactor := Fake.ComponentReqToComponent(q.components.compactor);
      var frontend := Fake.ComponentReqToComponent(q.components.frontend);
      var meta := Fake.ComponentReqToComponent(q.components.meta);
      var etcd := Fake.ComponentReqToComponent(Some(q.components.etcd));
      if compute.Panic? || compactor.Panic? || frontend.Panic? || meta.Panic? || etcd.Panic? || etcd.value.None? then Panic(NilDereference)
      else
        Return(TenantResource(
          TenantResourceComponents(compute.value, compactor.value, frontend.value, meta.value, etcd.value.value),
          q.computeFileCacheSizeGiB, q.enableComputeFileCache, q.etcdVolumeSizeGiB, 0, None))
  }

  /**
   * Against the internal fake: where both convert a request, the four
   * pointer components agree, while only this one fills the etcd slot and
   * only the internal one records a meta store.
   */
  lemma ResourceAgainstInternal(req: Option<TenantResourceRequest>)
    requires ReqResourceToClusterResource(req).Return? && Fake.ReqResourceToClusterResource(req).Return?
    ensures var p := ReqResourceToClusterResource(req).value.components;
      var i := Fake.ReqResourceToClusterResource(req).value.components;
      p.compute == i.compute && p.compactor == i.compactor && p.frontend == i.frontend && p.meta == i.meta
    ensures Fake.ReqResourceToClusterResource(req).value.components.etcd == Fake.ZeroComponent
    ensures ReqResourceToClusterResource(req).value.components.etcd.componentTypeId == req.value.components.etcd.componentTypeId
    ensures ReqResourceToClusterResource(req).value.metaStore.None? && Fake.ReqResourceToClusterResource(req).value.metaStore.Some?
  {
  }

  /** The tenant CreateClusterAwait builds, or the panic of a nil field. */
  function NewTenant(id: nat, region: string, req: TenantRequest, nsID: Uuid.Uuid): (r: Outcome<Tenant>)
    ensures !r.Fail?
    ensures r.Panic? <==> (req.imageTag.None? || req.rwConfig.None? || req.etcdConfig.None?
                           || ReqResourceToClusterResource(req.resources).Panic?)
    ensures r.Return? ==> (r.value.id == id && r.value.nsId == nsID && r.value.region == region
      && r.value.tenantName == req.tenantName && r.value.imageTag == req.imageTag.value
      && r.value.rwConfig == req.rwConfig.value && r.value.etcdConfig == req.etcdConfig.value
      && r.value.resources == ReqResourceToClusterResource(req.resources).value
      && r.value.status == "" && r.value.healthStatus == "" && r.value.tier == "" && r.value.clusterName.None?)
  {
    if req.imageTag.None? || req.rwConfig.None? || req.etcdConfig.None? then Panic(NilDereference)
    else match ReqResourceToClusterResource(req.resources)
      case Panic(p) => Panic(p)
      case Fail(e) => Fail(e)
      case Return(res) =>
        Return(Tenant(id, nsID, req.tenantName, region, "", "", req.imageTag.value, req.rwConfig.value,
                      req.etcdConfig.value, "", None, res))
  }

  /**
   * CreateClusterAwait: the region is created if needed; the tenant's ID is
   * one more than the region's count, and it is appended to the region. A
   * nil image tag, config or resource request panics after the region was
   * created.
   */
  function CreateClusterAwait(g: GlobalState, region: string, req: TenantRequest, nsID: Uuid.Uuid): (res: (GlobalState, Outcome<Tenant>))
    ensures !res.1.Fail?
    ensures var (g1, r) := GetRegionState(g, region);
      res.1 == NewTenant(|r.clusters| + 1, region, req, nsID)
      && (res.1.Panic? ==> res.0 == g1)
      && (res.1.Return? ==> res.0 == PutRegion(g1, region, AddCluster(r, res.1.value)))
  {
    var (g1, r) := GetRegionState(g, region);
    match NewTenant(|r.clusters| + 1, region, req, nsID)
    case Return(t) => (PutRegion(g1, region, AddCluster(r, t)), Return(t))
    case Fail(e) => (g1, Fail(e))
    case Panic(p) => (g1, Panic(p))
  }

  /** A created cluster with an ID no region held is then found by that ID, whatever the map order. */
  lemma CreateThenFind(g: GlobalState, region: string, req: TenantRequest, nsID: Uuid.Uuid, order: seq<string>)
    requires forall rg :: !HeldIn(g, nsID, rg)
    requires CreateClusterAwait(g, region, req, nsID).1.Return?
    requires IsOrder(order, CreateClusterAwait(g, region, req, nsID).0.regionStates.Keys)
    ensures GetClusterByNsID(CreateClusterAwait(g, region, req, nsID).0, nsID, order) == Ok(CreateClusterAwait(g, region, req, nsID).1.value)
  {
    var (g1, r) := GetRegionState(g, region);
    var t := CreateClusterAwait(g, region, req, nsID).1.value;
    var g2 := CreateClusterAwait(g, region, req, nsID).0;
    assert !HeldIn(g1, nsID, region) by {
      if region in g.regionStates { assert !HeldIn(g, nsID, region); }
    }
    RegionGetAfterAdd(r, t, nsID);
    forall rg | rg != region ensures !HeldIn(g2, nsID, rg) {
      assert !HeldIn(g, nsID, rg);
    }
    FoundWhereHeld(g2, nsID, order, region);
  }

  /** GetTiers: the Standard tier alone, offering the catalog for each of the five node kinds. */
  const Tiers: seq<Tier> := [Fake.FakeTier(Standard)]

  /** GetAvailableComponentTypes: the region service's selection, run on the fixed tier list. */
  function GetAvailableComponentTypes(targetTier: string, component: string): (r: Result<seq<AvailableComponentType>, Error>)
    ensures r.Ok? <==> targetTier == Standard && component in {PkgRegion.ComponentCompute, PkgRegion.ComponentCompactor,
                                                              PkgRegion.ComponentFrontend, PkgRegion.ComponentMeta, PkgRegion.ComponentEtcd}
    ensures r.Ok? ==> r.value == Fake.Catalog
    ensures targetTier != Standard ==> r == Err(Plain("tier " + targetTier + " not found"))
    ensures targetTier == Standard && r.Err? ==> r == Err(Plain("component " + component + " not found"))
  {
    match PkgRegion.GetAvailableComponentTypes(Return(Tiers), targetTier, component)
    case Return(l) => Ok(l)
    case Fail(e) => Err(e)
    case Panic(_) => assert false; Err(Plain(""))
  }

  /**
   * The Update…ByNsIDAwait operations: the tenant found by ID is changed,
   * then written over the first tenant with the ID in the region the
   * tenant names, created if needed. A lookup error is returned bare.
   */
  function UpdateByNsIDAwait(g: GlobalState, nsID: Uuid.Uuid, order: seq<string>, change: Fake.Change): (res: (GlobalState, Outcome<()>))
    requires IsOrder(order, g.regionStates.Keys)
    ensures GetClusterByNsID(g, nsID, order).Err? ==> res == (g, Fail(GetClusterByNsID(g, nsID, order).error))
    ensures GetClusterByNsID(g, nsID, order).Ok? ==>
      (res.1.Panic? <==> Fake.ApplyChange(GetClusterByNsID(g, nsID, order).value, change).Panic?)
    ensures res.1.Panic? ==> res.0 == g
    ensures res.1.Return? ==> (GetClusterByNsID(g, nsID, order).Ok?
      && var t := Fake.ApplyChange(GetClusterByNsID(g, nsID, order).value, change).value;
         var (g1, r) := GetRegionState(g, t.region);
         res.0 == PutRegion(g1, t.region, ReplaceCluster(r, nsID, t)))
  {
    match GetClusterByNsID(g, nsID, order)
    case Err(e) => (g, Fail(e))
    case Ok(c) =>
      match Fake.ApplyChange(c, change)
      case Fail(e) => (g, Fail(e))
      case Panic(p) => (g, Panic(p))
      case Return(t) =>
        var (g1, r) := GetRegionState(g, t.region);
        (PutRegion(g1, t.region, ReplaceCluster(r, nsID, t)), Return(()))
  }

  /**
   * When one region holds the ID and its tenant names that region, an
   * update that returns is seen by the next lookup.
   */
  lemma UpdateThenFind(g: GlobalState, nsID: Uuid.Uuid, order: seq<string>, change: Fake.Change, region: string)
    requires IsOrder(order, g.regionStates.Keys)
    requires HeldIn(g, nsID, region) && forall rg :: rg != region ==> !HeldIn(g, nsID, rg)
    requires RegionGet(g.regionStates[region], nsID).value.region == region
    requires UpdateByNsIDAwait(g, nsID, order, change).1.Return?
    ensures UpdateByNsIDAwait(g, nsID, order, change).0.regionStates.Keys == g.regionStates.Keys
    ensures GetClusterByNsID(UpdateByNsIDAwait(g, nsID, order, change).0, nsID, order)
         == Ok(Fake.ApplyChange(GetClusterByNsID(g, nsID, order).value, change).value)
  {
    FoundWhereHeld(g, nsID, order, region);
    var t := Fake.ApplyChange(GetClusterByNsID(g, nsID, order).value, change).value;
    var g2 := UpdateByNsIDAwait(g, nsID, order, change).0;
    var r := g.regionStates[region];
    assert g2 == PutRegion(g, region, ReplaceCluster(r, nsID, t));
    ReplaceThenGet(r, nsID, t);
    forall rg | rg != region ensures !HeldIn(g2, nsID, rg) {
      assert !HeldIn(g, nsID, rg);
    }
    FoundWhereHeld(g2, nsID, order, region);
  }

  /** Under the same conditions, every other ID is looked up as before. */
  lemma UpdateKeepsOtherLookups(g: GlobalState, nsID: Uuid.Uuid, order: seq<string>, change: Fake.Change, region: string, other: Uuid.Uuid)
    requires IsOrder(order, g.regionStates.Keys)
    requires HeldIn(g, nsID, region) && forall rg :: rg != region ==> !HeldIn(g, nsID, rg)
    requires RegionGet(g.regionStates[region], nsID).value.region == region
    requires UpdateByNsIDAwait(g, nsID, order, change).1.Return?
    requires other != nsID
    ensures GetClusterByNsID(UpdateByNsIDAwait(g, nsID, order, change).0, other, order) == GetClusterByNsID(g, other, order)
  {
    FoundWhereHeld(g, nsID, order, region);
    var t := Fake.ApplyChange(GetClusterByNsID(g, nsID, order).value, change).value;
    var g2 := UpdateByNsIDAwait(g, nsID, order, change).0;
    var r := g.regionStates[region];
    assert g2 == PutRegion(g, region, ReplaceCluster(r, nsID, t));
    ReplaceKeepsOthers(r, nsID, t, other);
    LookupsAlike(g, g2, other, order);
  }
}
