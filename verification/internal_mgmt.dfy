/**
 * The records of the management API (the generated package
 * internal/cloudsdk/apigen/mgmt) that the internal SDK, its fake backend
 * and the provider resources read and write. Go pointers become Option;
 * enumerations are strings, because the generated enumerations are named
 * string types whose constants spell their own names.
 *
 * The snapshot's callers were written against two revisions of Tenant
 * (one with a compute-cache record and a meta-store pointer, one with file
 * cache flags and an etcd component); the records here carry the fields of
 * both, and every caller reads only the fields its own revision has.
 */
module Mgmt {
  import opened Wrappers
  import GoErrors
  import Uuid

  const Running := "Running"
  const Healthy := "Healthy"
  const Created := "CREATED"
  const Accepted := "ACCEPTED"
  const Standard := "Standard"
  const Byoc := "BYOC"
  const Invited := "Invited"

  /** ComponentResource: a component type with its replica count and the type's size. */
  datatype ComponentResource = ComponentResource(componentTypeId: string, replica: int, cpu: string, memory: string)

  datatype MetaStoreEtcd = MetaStoreEtcd(resource: ComponentResource, sizeGb: int)

  datatype TenantResourceMetaStore = TenantResourceMetaStore(storeType: string, etcd: Option<MetaStoreEtcd>)

  /** The four pointer components and the etcd value component of a tenant. */
  datatype TenantResourceComponents = TenantResourceComponents(
    compute: Option<ComponentResource>,
    compactor: Option<ComponentResource>,
    frontend: Option<ComponentResource>,
    meta: Option<ComponentResource>,
    etcd: ComponentResource)

  datatype TenantResource = TenantResource(
    components: TenantResourceComponents,
    computeFileCacheSizeGiB: int,
    enableComputeFileCache: bool,
    etcdVolumeSizeGiB: int,
    computeCacheSizeGb: int,
    metaStore: Option<TenantResourceMetaStore>)

  datatype Tenant = Tenant(
    id: nat,
    nsId: Uuid.Uuid,
    tenantName: string,
    region: string,
    status: string,
    healthStatus: string,
    imageTag: string,
    rwConfig: string,
    etcdConfig: string,
    tier: string,
    clusterName: Option<string>,
    resources: TenantResource)

  /** The zero value of ComponentResource. */
  const ZeroComponentResource := ComponentResource("", 0, "", "")

  /** The zero value of Tenant, as `var cluster apigen_mgmt.Tenant` declares it: every pointer nil. */
  const ZeroTenant := Tenant(0, Uuid.Nil, "", "", "", "", "", "", "", "", None,
    TenantResource(TenantResourceComponents(None, None, None, None, ZeroComponentResource), 0, false, 0, 0, None))

  datatype ComponentResourceRequest = ComponentResourceRequest(componentTypeId: string, replica: int)

  datatype TenantResourceRequestMetaStoreEtcd = TenantResourceRequestMetaStoreEtcd(componentTypeId: string, replica: int, sizeGb: int)

  datatype TenantResourceRequestMetaStore = TenantResourceRequestMetaStore(storeType: string, etcd: Option<TenantResourceRequestMetaStoreEtcd>)

  datatype TenantResourceRequestComponents = TenantResourceRequestComponents(
    compute: Option<ComponentResourceRequest>,
    compactor: Option<ComponentResourceRequest>,
    frontend: Option<ComponentResourceRequest>,
    meta: Option<ComponentResourceRequest>,
    etcd: ComponentResourceRequest)

  datatype TenantResourceRequest = TenantResourceRequest(
    components: TenantResourceRequestComponents,
    computeFileCacheSizeGiB: int,
    enableComputeFileCache: bool,
    etcdVolumeSizeGiB: int,
    metaStore: TenantResourceRequestMetaStore)

  /** TenantRequestRequestBody: the body of a create-cluster call. */
  datatype TenantRequest = TenantRequest(
    tenantName: string,
    imageTag: Option<string>,
    rwConfig: Option<string>,
    etcdConfig: Option<string>,
    tier: Option<string>,
    clusterName: Option<string>,
    resources: Option<TenantResourceRequest>)

  /** PostTenantResourcesRequestBody: the body of a resources update. */
  datatype PostTenantResourcesRequestBody = PostTenantResourcesRequestBody(
    compute: Option<ComponentResourceRequest>,
    compactor: Option<ComponentResourceRequest>,
    frontend: Option<ComponentResourceRequest>,
    meta: Option<ComponentResourceRequest>)

  datatype AvailableComponentType = AvailableComponentType(id: string, cpu: string, memory: string, maximum: int)

  datatype Tier = Tier(
    id: Option<string>,
    availableComputeNodes: seq<AvailableComponentType>,
    availableCompactorNodes: seq<AvailableComponentType>,
    availableFrontendNodes: seq<AvailableComponentType>,
    availableMetaNodes: seq<AvailableComponentType>,
    availableEtcdNodes: seq<AvailableComponentType>,
    metaStoreEtcdNodes: seq<AvailableComponentType>,
    metaStorePostgresqlNodes: seq<AvailableComponentType>,
    maximumEtcdSizeGiB: int)

  datatype DBUser = DBUser(username: string, usesuper: bool, usecreatedb: bool, usesysid: nat)

  datatype PrivateLink = PrivateLink(
    id: Uuid.Uuid,
    connectionName: string,
    target: Option<string>,
    endpoint: Option<string>,
    status: string,
    connectionState: string,
    tenantId: int)

  datatype PostPrivateLinkRequestBody = PostPrivateLinkRequestBody(connectionName: string, target: string)

  /** A private link together with the namespace of the cluster that owns it. */
  datatype PrivateLinkInfo = PrivateLinkInfo(link: Option<PrivateLink>, clusterNsId: Uuid.Uuid)

  /**
   * A generated client's answer: the status code, the raw body, and the
   * decoded payload for the status the operation declares (None when the
   * generated client left that pointer nil).
   */
  datatype Response<T> = Response(statusCode: int, body: string, payload: Option<T>)

  /** The outcome of one call: a transport error or a response. */
  type Call<T> = Result<Response<T>, GoErrors.Error>
}
