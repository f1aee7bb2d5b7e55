/**
 * internal/cloudsdk/fake/state.go: the in-memory backend behind the fake
 * cloud client. A cluster holds its tenant, its users by name and its
 * private links by the text of their ID; a region holds clusters by the
 * text of their namespace ID; the global state holds regions by name.
 *
 * The Go code shares these records through pointers; here they are values,
 * and an operation that changes one returns the new value. The mutexes
 * only serialise access and are not modelled.
 */
module FakeState {
  import opened Wrappers
  import opened GoErrors
  import opened Mgmt
  import opened GoMaps
  import Uuid

  /** ClusterState; a nil privateLinks map is None. */
  datatype ClusterState = ClusterState(
    tenant: Tenant,
    users: map<string, DBUser>,
    privateLinks: Option<map<string, PrivateLink>>)

  /** NewClusterState: users start empty, private links start as a nil map. */
  function NewClusterState(t: Tenant): (c: ClusterState)
    ensures c.tenant == t && c.users == map[]
    ensures c.privateLinks.None?
  {
    ClusterState(t, map[], None)
  }

  /** AddClusterUser: insert or overwrite by username. */
  function AddClusterUser(c: ClusterState, user: DBUser): (r: ClusterState)
    ensures r.tenant == c.tenant && r.privateLinks == c.privateLinks
    ensures r.users.Keys == c.users.Keys + {user.username}
  {
    c.(users := c.users[user.username := user])
  }

  /** DeleteClusterUser: remove the username; nothing else changes. */
  function DeleteClusterUser(c: ClusterState, username: string): (r: ClusterState)
    ensures r.tenant == c.tenant && r.privateLinks == c.privateLinks
    ensures r.users.Keys == c.users.Keys - {username}
  {
    c.(users := c.users - {username})
  }

  /** GetClusterUser: the stored user, or ErrClusterUserNotFound wrapped with the name. */
  function GetClusterUser(c: ClusterState, username: string): (r: Result<DBUser, Error>)
    ensures r.Ok? <==> username in c.users
    ensures r.Err? ==> Is(r.error, ClusterUserNotFound)
    ensures r.Err? ==> ErrorText(r.error) == "username: " + username + ": " + "cluster user not found"
  {
    if username in c.users then Ok(c.users[username])
    else Err(Wrapped(Sentinel(ClusterUserNotFound), "username: " + username))
  }

  /** A user just added is the one GetClusterUser returns, and no other name is affected. */
  lemma GetAfterAddClusterUser(c: ClusterState, user: DBUser, name: string)
    ensures GetClusterUser(AddClusterUser(c, user), user.username) == Ok(user)
    ensures name != user.username ==> GetClusterUser(AddClusterUser(c, user), name) == GetClusterUser(c, name)
  {
  }

  /** After a delete the name is not found, other names answer as before, and deleting an absent name changes nothing. */
  lemma GetAfterDeleteClusterUser(c: ClusterState, username: string, name: string)
    ensures GetClusterUser(DeleteClusterUser(c, username), username).Err?
    ensures name != username ==> GetClusterUser(DeleteClusterUser(c, username), name) == GetClusterUser(c, name)
    ensures username !in c.users ==> DeleteClusterUser(c, username) == c
  {
  }

  /**
   * AddPrivateLink writes into the privateLinks map; on a nil map Go
   * panics, so the map must have been made.
   */
  function AddPrivateLink(c: ClusterState, link: PrivateLink): (r: ClusterState)
    requires c.privateLinks.Some?
    ensures r.tenant == c.tenant && r.users == c.users && r.privateLinks.Some?
    ensures r.privateLinks.value.Keys == c.privateLinks.value.Keys + {Uuid.ToString(link.id)}
  {
    c.(privateLinks := Some(c.privateLinks.value[Uuid.ToString(link.id) := link]))
  }

  /** DeletePrivateLink: deleting from a nil map is a no-op in Go. */
  function DeletePrivateLink(c: ClusterState, id: Uuid.Uuid): (r: ClusterState)
    ensures r.tenant == c.tenant && r.users == c.users
    ensures c.privateLinks.None? ==> r == c
    ensures c.privateLinks.Some? ==> r.privateLinks.Some? && r.privateLinks.value.Keys == c.privateLinks.value.Keys - {Uuid.ToString(id)}
  {
    match c.privateLinks
    case None => c
    case Some(m) => c.(privateLinks := Some(m - {Uuid.ToString(id)}))
  }

  /** GetPrivateLink: a lookup by the ID's text; a nil map holds nothing. */
  function GetPrivateLink(c: ClusterState, id: Uuid.Uuid): (r: Result<PrivateLink, Error>)
    ensures r.Ok? <==> c.privateLinks.Some? && Uuid.ToString(id) in c.privateLinks.value
    ensures r.Err? ==> Is(r.error, PrivateLinkNotFound)
  {
    if c.privateLinks.Some? && Uuid.ToString(id) in c.privateLinks.value then Ok(c.privateLinks.value[Uuid.ToString(id)])
    else Err(Wrapped(Sentinel(PrivateLinkNotFound), "id: " + Uuid.ToString(id)))
  }

  /** A link just added is found under its own ID, and only under IDs whose text differs does the answer stay the same. */
  lemma GetAfterAddPrivateLink(c: ClusterState, link: PrivateLink, id: Uuid.Uuid)
    requires c.privateLinks.Some?
    ensures GetPrivateLink(AddPrivateLink(c, link), link.id) == Ok(link)
    ensures id != link.id ==> GetPrivateLink(AddPrivateLink(c, link), id) == GetPrivateLink(c, id)
  {
    if id != link.id {
      Uuid.ToStringInjective(id, link.id);
    }
  }

  /** A fresh cluster has no private-link map, so a link can be added to it only after someone makes one. */
  lemma FreshClusterHasNoLinkMap(t: Tenant, id: Uuid.Uuid)
    ensures NewClusterState(t).privateLinks.None?
    ensures GetPrivateLink(NewClusterState(t), id).Err?
    ensures DeletePrivateLink(NewClusterState(t), id) == NewClusterState(t)
  {
  }

  datatype RegionState = RegionState(clusters: map<string, ClusterState>)

  const EmptyRegion := RegionState(map[])

  /** RegionState.GetClusterByNsID: a lookup by the namespace ID's text. */
  function RegionCluster(r: RegionState, nsID: Uuid.Uuid): (res: Result<ClusterState, Error>)
    ensures res.Ok? <==> Uuid.ToString(nsID) in r.clusters
    ensures res.Ok? ==> res.value == r.clusters[Uuid.ToString(nsID)]
    ensures res.Err? ==> Is(res.error, ClusterNotFound)
  {
    if Uuid.ToString(nsID) in r.clusters then Ok(r.clusters[Uuid.ToString(nsID)])
    else Err(Wrapped(Sentinel(ClusterNotFound), "nsID: " + Uuid.ToString(nsID)))
  }

  /** AddCluster: store under the text of the cluster's own namespace ID. */
  function AddCluster(r: RegionState, c: ClusterState): (res: RegionState)
    ensures res.clusters.Keys == r.clusters.Keys + {Uuid.ToString(c.tenant.nsId)}
  {
    RegionState(r.clusters[Uuid.ToString(c.tenant.nsId) := c])
  }

  /** DeleteCluster: remove the key. */
  function DeleteCluster(r: RegionState, nsID: Uuid.Uuid): (res: RegionState)
    ensures res.clusters.Keys == r.clusters.Keys - {Uuid.ToString(nsID)}
  {
    RegionState(r.clusters - {Uuid.ToString(nsID)})
  }

  /** ReplaceCluster: store under the given ID, inserting when absent. */
  function ReplaceCluster(r: RegionState, nsID: Uuid.Uuid, c: ClusterState): (res: RegionState)
    ensures res.clusters.Keys == r.clusters.Keys + {Uuid.ToString(nsID)}
  {
    RegionState(r.clusters[Uuid.ToString(nsID) := c])
  }

  /** The region answers for an added, replaced or deleted cluster accordingly, and for every other ID as before. */
  lemma RegionClusterAfterChange(r: RegionState, c: ClusterState, nsID: Uuid.Uuid, other: Uuid.Uuid)
    ensures RegionCluster(AddCluster(r, c), c.tenant.nsId) == Ok(c)
    ensures RegionCluster(ReplaceCluster(r, nsID, c), nsID) == Ok(c)
    ensures RegionCluster(DeleteCluster(r, nsID), nsID).Err?
    ensures other != nsID ==> RegionCluster(ReplaceCluster(r, nsID, c), other) == RegionCluster(r, other)
    ensures other != nsID ==> RegionCluster(DeleteCluster(r, nsID), other) == RegionCluster(r, other)
    ensures other != c.tenant.nsId ==> RegionCluster(AddCluster(r, c), other) == RegionCluster(r, other)
  {
    Uuid.ToStringInjective(other, nsID);
    Uuid.ToStringInjective(other, c.tenant.nsId);
  }

  datatype GlobalState = GlobalState(regions: map<string, RegionState>)

  /** GetRegionState: the region, created empty on first access. */
  function GetRegionState(g: GlobalState, region: string): (res: (GlobalState, RegionState))
    ensures region in res.0.regions && res.0.regions[region] == res.1
    ensures region in g.regions ==> res.0 == g && res.1 == g.regions[region]
    ensures region !in g.regions ==> res.1 == EmptyRegion && res.0.regions == g.regions[region := EmptyRegion]
  {
    if region in g.regions then (g, g.regions[region])
    else (GlobalState(g.regions[region := EmptyRegion]), EmptyRegion)
  }

  /** Asking twice gives the same region and changes nothing the second time. */
  lemma GetRegionStateStable(g: GlobalState, region: string)
    ensures var (g1, r1) := GetRegionState(g, region);
      GetRegionState(g1, region) == (g1, r1)
  {
  }

  /** Store a region back under its name (the pointer write of the Go code). */
  function PutRegion(g: GlobalState, region: string, r: RegionState): (res: GlobalState)
    ensures res.regions.Keys == g.regions.Keys + {region} && res.regions[region] == r
  {
    GlobalState(g.regions[region := r])
  }

  /** The first region in `order` that holds the namespace ID. */
  function FirstRegionWith(g: GlobalState, key: string, order: seq<string>): (r: Option<string>)
    requires forall i :: 0 <= i < |order| ==> order[i] in g.regions
    ensures r.Some? ==> r.value in order && key in g.regions[r.value].clusters
    ensures r.None? <==> forall i :: 0 <= i < |order| ==> key !in g.regions[order[i]].clusters
  {
    if |order| == 0 then None
    else if key in g.regions[order[0]].clusters then Some(order[0])
    else FirstRegionWith(g, key, order[1..])
  }

  /** A cluster together with the name of the region it was found in. */
  datatype Found = Found(region: string, cluster: ClusterState)

  /**
   * GlobalState.GetClusterByNsID: the regions are visited in map order and
   * the first region that holds the ID answers; else ErrClusterNotFound.
   */
  function GetClusterByNsID(g: GlobalState, nsID: Uuid.Uuid, order: seq<string>): (res: Result<Found, Error>)
    requires IsOrder(order, g.regions.Keys)
    ensures res.Ok? <==> exists region :: region in g.regions && Uuid.ToString(nsID) in g.regions[region].clusters
    ensures res.Ok? ==> (res.value.region in g.regions && Uuid.ToString(nsID) in g.regions[res.value.region].clusters
                         && g.regions[res.value.region].clusters[Uuid.ToString(nsID)] == res.value.cluster)
    ensures res.Err? ==> Is(res.error, ClusterNotFound)
  {
    var key := Uuid.ToString(nsID);
    match FirstRegionWith(g, key, order)
    case Some(region) => Ok(Found(region, g.regions[region].clusters[key]))
    case None =>
      assert forall region :: region in g.regions ==> key !in g.regions[region].clusters by {
        forall region | region in g.regions
          ensures key !in g.regions[region].clusters
        {
          var i :| 0 <= i < |order| && order[i] == region;
        }
      }
      Err(Wrapped(Sentinel(ClusterNotFound), "nsID: " + key))
  }

  /**
   * The shape the fake backend keeps: every cluster is stored under the
   * text of its own namespace ID, in the region its tenant names, and no
   * ID is stored in two regions.
   */
  predicate Consistent(g: GlobalState)
  {
    (forall region, key :: region in g.regions && key in g.regions[region].clusters ==>
      key == Uuid.ToString(g.regions[region].clusters[key].tenant.nsId)
      && g.regions[region].clusters[key].tenant.region == region)
    && (forall r1, r2, key ::
          (r1 in g.regions && r2 in g.regions && key in g.regions[r1].clusters && key in g.regions[r2].clusters) ==> r1 == r2)
  }

  /** In a consistent state the map order does not change what GetClusterByNsID answers. */
  lemma OrderIrrelevant(g: GlobalState, nsID: Uuid.Uuid, o1: seq<string>, o2: seq<string>)
    requires Consistent(g)
    requires IsOrder(o1, g.regions.Keys) && IsOrder(o2, g.regions.Keys)
    ensures GetClusterByNsID(g, nsID, o1) == GetClusterByNsID(g, nsID, o2)
  {
  }

  /**
   * GetNsIDByRegionAndName: creates the region if needed, then visits its
   * clusters in map order for the first tenant with that name; the nil
   * UUID and ErrClusterNotFound when there is none.
   */
  function GetNsIDByRegionAndName(g: GlobalState, region: string, name: string, order: seq<string>): (res: (GlobalState, Result<Uuid.Uuid, Error>))
    requires IsOrder(order, GetRegionState(g, region).1.clusters.Keys)
    ensures res.0 == GetRegionState(g, region).0
    ensures res.1.Ok? <==> exists key :: (key in GetRegionState(g, region).1.clusters
                                          && GetRegionState(g, region).1.clusters[key].tenant.tenantName == name)
    ensures res.1.Err? ==> Is(res.1.error, ClusterNotFound)
    ensures res.1.Err? ==> ErrorText(res.1.error) == "region: " + region + ", name: " + name + ": " + "cluster not found"
  {
    var (g1, r) := GetRegionState(g, region);
    (g1, FirstNamed(r, region, name, order))
  }

  /** The namespace ID of the first cluster in `order` whose tenant has that name. */
  function FirstNamed(r: RegionState, region: string, name: string, order: seq<string>): (res: Result<Uuid.Uuid, Error>)
    requires IsOrder(order, r.clusters.Keys)
    ensures res.Ok? <==> exists key :: key in r.clusters && r.clusters[key].tenant.tenantName == name
    ensures res.Ok? ==> exists key :: (key in r.clusters && r.clusters[key].tenant.tenantName == name
                                       && r.clusters[key].tenant.nsId == res.value)
    ensures res.Err? ==> Is(res.error, ClusterNotFound)
  {
    match FirstNamedIndex(r, name, order)
    case Some(i) => Ok(r.clusters[order[i]].tenant.nsId)
    case None =>
      assert forall key :: key in r.clusters ==> r.clusters[key].tenant.tenantName != name by {
        forall key | key in r.clusters
          ensures r.clusters[key].tenant.tenantName != name
        {
          var i :| 0 <= i < |order| && order[i] == key;
        }
      }
      Err(Wrapped(Sentinel(ClusterNotFound), "region: " + region + ", name: " + name))
  }

  function FirstNamedIndex(r: RegionState, name: string, order: seq<string>): (res: Option<nat>)
    requires forall i :: 0 <= i < |order| ==> order[i] in r.clusters
    ensures res.Some? ==> res.value < |order| && r.clusters[order[res.value]].tenant.tenantName == name
    ensures res.Some? ==> forall i :: 0 <= i < res.value ==> r.clusters[order[i]].tenant.tenantName != name
    ensures res.None? ==> forall i :: 0 <= i < |order| ==> r.clusters[order[i]].tenant.tenantName != name
  {
    if |order| == 0 then None
    else if r.clusters[order[0]].tenant.tenantName == name then Some(0)
    else match FirstNamedIndex(r, name, order[1..])
      case Some(i) => Some(i + 1)
      case None => None
  }
}
