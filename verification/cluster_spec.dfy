/**
 * The nested "spec" attribute of the cluster resource, as both
 * internal/provider/resource_cluster.go and internal/provider/cluster.go
 * declare it: compute, compactor and frontend each hold a resource (a
 * component type ID and a replica count); meta holds a resource and an
 * optional etcd meta store; the RisingWave configuration is a string.
 */
module ClusterSpec {
  import opened Tf
  import opened Framework
  import Mgmt

  /** ResourceModel: the "id" and "replica" of one component. */
  datatype ResourceModel = ResourceModel(id: Value<string>, replica: Value<int>)

  /** ComputeSpecModel, CompactorSpecModel and FrontendSpecModel, which are alike. */
  datatype ComponentSpecModel = ComponentSpecModel(resource: Value<ResourceModel>)

  datatype EtcdMetaStoreModel = EtcdMetaStoreModel(resource: Value<ResourceModel>, etcdConfig: Value<string>)

  datatype MetaSpecModel = MetaSpecModel(resource: Value<ResourceModel>, etcdMetaStore: Value<EtcdMetaStoreModel>)

  datatype ClusterSpecModel = ClusterSpecModel(
    compute: Value<ComponentSpecModel>,
    compactor: Value<ComponentSpecModel>,
    frontend: Value<ComponentSpecModel>,
    meta: Value<MetaSpecModel>,
    risingwaveConfig: Value<string>)

  /** The zero values of the model structs: every attribute null. */
  const EmptyResource := ResourceModel(Null, Null)
  const EmptyComponentSpec := ComponentSpecModel(Null)
  const EmptyEtcdMetaStore := EtcdMetaStoreModel(Null, Null)
  const EmptyMetaSpec := MetaSpecModel(Null, Null)
  const EmptySpec := ClusterSpecModel(Null, Null, Null, Null, Null)

  /**
   * types.Object.As with UnhandledNullAsEmpty and UnhandledUnknownAsEmpty:
   * a known object decodes to its attributes, a null or unknown one to the
   * target type's zero value.
   */
  function As<T>(obj: Value<T>, zero: T): (r: T)
    ensures obj.Known? ==> r == obj.v
    ensures !obj.Known? ==> r == zero
  {
    if obj.Known? then obj.v else zero
  }

  /** A component's resource object, decoded, for compute, compactor or frontend. */
  function ComponentResourceOf(spec: Value<ComponentSpecModel>): ResourceModel
  {
    As(As(spec, EmptyComponentSpec).resource, EmptyResource)
  }

  /**
   * The API component a resource object becomes: its ID and replica count
   * (int(ValueInt64())), with no size.
   */
  function ToComponent(m: ResourceModel): (c: Mgmt.ComponentResource)
    ensures c.cpu == "" && c.memory == ""
  {
    Mgmt.ComponentResource(ValueString(m.id), ValueInt64(m.replica), "", "")
  }

  /** The resource object an API component becomes: a known ID and a known replica count. */
  function FromComponent(c: Mgmt.ComponentResource): (m: ResourceModel)
    ensures ToComponent(m).componentTypeId == c.componentTypeId && ToComponent(m).replica == c.replica
  {
    ResourceModel(Known(c.componentTypeId), Known(c.replica))
  }

  /** A component spec object holding just that resource. */
  function ComponentSpecOf(c: Mgmt.ComponentResource): (s: Value<ComponentSpecModel>)
    ensures ToComponent(ComponentResourceOf(s)) == Mgmt.ComponentResource(c.componentTypeId, c.replica, "", "")
  {
    Known(ComponentSpecModel(Known(FromComponent(c))))
  }

  /** The decoded meta spec of a spec object. */
  function MetaSpecOf(spec: Value<ClusterSpecModel>): MetaSpecModel
  {
    As(As(spec, EmptySpec).meta, EmptyMetaSpec)
  }

  /** The decoded etcd meta store of a spec object; empty when the store is null. */
  function EtcdStoreOf(spec: Value<ClusterSpecModel>): EtcdMetaStoreModel
  {
    As(MetaSpecOf(spec).etcdMetaStore, EmptyEtcdMetaStore)
  }

  /** Whether a tenant's four pointer components (all but etcd) are set. */
  predicate HasComponents(t: Mgmt.Tenant)
  {
    t.resources.components.compute.Some? && t.resources.components.compactor.Some?
    && t.resources.components.frontend.Some? && t.resources.components.meta.Some?
  }

  /** The request form of a component: its type ID and replica count. */
  function ComponentRequest(c: Mgmt.ComponentResource): Mgmt.ComponentResourceRequest
  {
    Mgmt.ComponentResourceRequest(c.componentTypeId, c.replica)
  }

  /** What dataModelToCluster returns, and the tenant it leaves behind. */
  datatype Conversion = Conversion(diags: seq<Diagnostic>, tenant: Mgmt.Tenant)

  const MissingMetaStore := ErrorDiag("Missing meta store", "Meta store is required to setup the cluster.")
}
