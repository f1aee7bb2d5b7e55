/**
 * internal/provider/resource_privatelink.go: the risingwavecloud_privatelink
 * resource. All four attributes the user sets are immutable; the private
 * link ID is computed. The client's answers are parameters and the calls
 * made are recorded in order.
 */
module ResourcePrivateLink {
  import opened Wrappers
  import opened GoErrors
  import opened Tf
  import opened Framework
  import Defaults
  import Uuid
  import Mgmt

  /** PrivateLinkModel: the resource's attributes. */
  datatype PrivateLinkModel = PrivateLinkModel(
    id: Value<string>,
    clusterId: Value<string>,
    connectionName: Value<string>,
    target: Value<string>,
    endpoint: Value<string>)

  /** The client calls the resource makes. */
  datatype Call =
    | CreateAwait(nsID: Uuid.Uuid, body: Mgmt.PostPrivateLinkRequestBody)
    | GetLink(id: Uuid.Uuid)
    | DeleteAwait(nsID: Uuid.Uuid, id: Uuid.Uuid)

  type LinkRun = Run<Call, PrivateLinkModel>

  /**
   * privateLinkToDataModel: the link ID and the cluster NsID in canonical
   * text, the connection name, and the target and endpoint with a missing
   * one written as "". A nil link pointer is dereferenced (None).
   */
  function ToDataModel(info: Mgmt.PrivateLinkInfo): (r: Option<PrivateLinkModel>)
    ensures r.Some? <==> info.link.Some?
    ensures r.Some? ==> Uuid.Parse(ValueString(r.value.id)) == Some(info.link.value.id)
    ensures r.Some? ==> Uuid.Parse(ValueString(r.value.clusterId)) == Some(info.clusterNsId)
    ensures r.Some? ==> r.value.connectionName == Known(info.link.value.connectionName)
    ensures r.Some? ==> r.value.target == Known(if info.link.value.target.Some? then info.link.value.target.value else "")
    ensures r.Some? ==> r.value.endpoint == Known(if info.link.value.endpoint.Some? then info.link.value.endpoint.value else "")
  {
    match info.link
    case None => None
    case Some(pl) =>
      Uuid.ParseToString(pl.id);
      Uuid.ParseToString(info.clusterNsId);
      Some(PrivateLinkModel(
        Known(Uuid.ToString(pl.id)),
        Known(Uuid.ToString(info.clusterNsId)),
        Known(pl.connectionName),
        Known(Defaults.UnwrapOr(pl.target, "")),
        Known(Defaults.UnwrapOr(pl.endpoint, ""))))
  }

  /** The validation Create makes before any call, in order; None when the plan passes. */
  function CreateRejection(plan: PrivateLinkModel): (d: Option<Diagnostic>)
    ensures Uuid.Parse(ValueString(plan.clusterId)).None? ==>
      d == Some(ErrorDiag("ClusterID is invalid", "Cannot parse cluster ID " + Render(plan.clusterId)))
    ensures Uuid.Parse(ValueString(plan.clusterId)).Some? && ValueString(plan.connectionName) == "" ==>
      d == Some(ErrorDiag("connection_name is missing", "connection_name is required to create the private link resource"))
    ensures Uuid.Parse(ValueString(plan.clusterId)).Some? && ValueString(plan.connectionName) != "" && ValueString(plan.target) == "" ==>
      d == Some(ErrorDiag("target is missing", "target is required to create the private link resource"))
    ensures d.None? <==>
      Uuid.Parse(ValueString(plan.clusterId)).Some? && ValueString(plan.connectionName) != "" && ValueString(plan.target) != ""
  {
    if Uuid.Parse(ValueString(plan.clusterId)).None? then
      Some(ErrorDiag("ClusterID is invalid", "Cannot parse cluster ID " + Render(plan.clusterId)))
    else if |ValueString(plan.connectionName)| == 0 then
      Some(ErrorDiag("connection_name is missing", "connection_name is required to create the private link resource"))
    else if |ValueString(plan.target)| == 0 then
      Some(ErrorDiag("target is missing", "target is required to create the private link resource"))
    else None
  }

  /**
   * Create: a rejected plan makes no call; otherwise the link is created
   * and awaited with the plan's connection name and target.
   */
  function Create(plan: PrivateLinkModel, created: Result<Mgmt.PrivateLinkInfo, Error>): (r: LinkRun)
    ensures CreateRejection(plan).Some? ==> r == Stop([], CreateRejection(plan).value)
    ensures CreateRejection(plan).None? ==>
      r.calls == [CreateAwait(Uuid.Parse(ValueString(plan.clusterId)).value,
                              Mgmt.PostPrivateLinkRequestBody(ValueString(plan.connectionName), ValueString(plan.target)))]
    ensures r.calls == [] <==> CreateRejection(plan).Some?
    ensures CreateRejection(plan).None? && created.Err? ==> r.diags == [ErrorDiag("Create failed", ErrorText(created.error))]
    ensures r.write.Saved? <==> CreateRejection(plan).None? && created.Ok? && created.value.link.Some?
    ensures r.write.Saved? ==> Some(r.write.model) == ToDataModel(created.value)
  {
    match CreateRejection(plan)
    case Some(d) => Stop([], d)
    case None =>
      var calls := [CreateAwait(Uuid.Parse(ValueString(plan.clusterId)).value,
                                Mgmt.PostPrivateLinkRequestBody(ValueString(plan.connectionName), ValueString(plan.target)))];
      match created
      case Err(e) => Stop(calls, ErrorDiag("Create failed", ErrorText(e)))
      case Ok(info) =>
        match ToDataModel(info)
        case None => Crash(calls, NilDereference)
        case Some(m) => Done(calls, Saved(m))
  }

  /** Read: the ID must be known and a UUID; the link is fetched and converted. */
  function Read(state: PrivateLinkModel, got: Result<Mgmt.PrivateLinkInfo, Error>): (r: LinkRun)
    ensures !state.id.Known? ==> r == Stop([], ErrorDiag("ID is missing", "ID is required to read the resource"))
    ensures state.id.Known? && Uuid.Parse(state.id.v).None? ==>
      r == Stop([], ErrorDiag("ID is invalid", "Cannot parse private link ID " + Render(state.id)))
    ensures state.id.Known? && Uuid.Parse(state.id.v).Some? ==> r.calls == [GetLink(Uuid.Parse(state.id.v).value)]
    ensures r.write.Saved? <==> state.id.Known? && Uuid.Parse(state.id.v).Some? && got.Ok? && got.value.link.Some?
    ensures r.write.Saved? ==> Some(r.write.model) == ToDataModel(got.value)
  {
    if !state.id.Known? then Stop([], ErrorDiag("ID is missing", "ID is required to read the resource"))
    else match Uuid.Parse(state.id.v)
      case None => Stop([], ErrorDiag("ID is invalid", "Cannot parse private link ID " + Render(state.id)))
      case Some(id) =>
        match got
        case Err(e) => Stop([GetLink(id)], ErrorDiag("Read failed", ErrorText(e)))
        case Ok(info) =>
          match ToDataModel(info)
          case None => Crash([GetLink(id)], NilDereference)
          case Some(m) => Done([GetLink(id)], Saved(m))
  }

  /** A state Create saved is read back by the same link ID. */
  lemma ReadAfterCreate(plan: PrivateLinkModel, info: Mgmt.PrivateLinkInfo, got: Result<Mgmt.PrivateLinkInfo, Error>)
    requires Create(plan, Ok(info)).write.Saved?
    ensures Read(Create(plan, Ok(info)).write.model, got).calls == [GetLink(info.link.value.id)]
  {
  }

  /**
   * The immutability checks of Update, compared as ValueString and in the
   * order connection_name, endpoint, target, cluster_id; the first
   * difference is the one reported.
   */
  function ImmutableViolation(plan: PrivateLinkModel, state: PrivateLinkModel): (d: Option<Diagnostic>)
    ensures d.None? <==>
      ValueString(plan.connectionName) == ValueString(state.connectionName)
      && ValueString(plan.endpoint) == ValueString(state.endpoint)
      && ValueString(plan.target) == ValueString(state.target)
      && ValueString(plan.clusterId) == ValueString(state.clusterId)
    ensures ValueString(plan.connectionName) != ValueString(state.connectionName) ==>
      d == Some(ErrorDiag("connection_name is immutable", "connection_name cannot be changed"))
  {
    if ValueString(plan.connectionName) != ValueString(state.connectionName) then
      Some(ErrorDiag("connection_name is immutable", "connection_name cannot be changed"))
    else if ValueString(plan.endpoint) != ValueString(state.endpoint) then
      Some(ErrorDiag("endpoint is immutable after creation", "endpoint cannot be changed"))
    else if ValueString(plan.target) != ValueString(state.target) then
      Some(ErrorDiag("target is immutable", "target cannot be changed"))
    else if ValueString(plan.clusterId) != ValueString(state.clusterId) then
      Some(ErrorDiag("cluster_id is immutable", "cluster_id cannot be changed"))
    else None
  }

  /** Update never calls the client: it rejects a change, or saves the plan with the stored ID. */
  function Update(plan: PrivateLinkModel, state: PrivateLinkModel): (r: LinkRun)
    ensures r.calls == [] && r.panic.None?
    ensures ImmutableViolation(plan, state).Some? ==> r.diags == [ImmutableViolation(plan, state).value] && r.write.Untouched?
    ensures ImmutableViolation(plan, state).None? ==> r.diags == [] && r.write == Saved(plan.(id := state.id))
  {
    match ImmutableViolation(plan, state)
    case Some(d) => Stop([], d)
    case None => Done([], Saved(plan.(id := state.id)))
  }

  /** Updating to the stored attributes is accepted and stores them unchanged. */
  lemma UpdateToStateIsIdentity(state: PrivateLinkModel)
    ensures Update(state, state) == Done([], Saved(state))
  {
  }

  /**
   * Delete: the ID must be known, then the cluster ID and the link ID must
   * both parse, before the awaited delete; a timeout has its own summary.
   */
  function Delete(state: PrivateLinkModel, deleted: Option<Error>): (r: LinkRun)
    ensures !state.id.Known? ==> r == Stop([], ErrorDiag("ID is missing", "ID is required to delete the resource"))
    ensures state.id.Known? && Uuid.Parse(ValueString(state.clusterId)).None? ==>
      r == Stop([], ErrorDiag("ClusterID is invalid", "Cannot parse cluster ID " + Render(state.clusterId)))
    ensures state.id.Known? && Uuid.Parse(ValueString(state.clusterId)).Some? && Uuid.Parse(state.id.v).None? ==>
      r == Stop([], ErrorDiag("ID is invalid", "Cannot parse private link ID " + Render(state.id)))
    ensures r.calls != [] <==> state.id.Known? && Uuid.Parse(ValueString(state.clusterId)).Some? && Uuid.Parse(state.id.v).Some?
    ensures r.calls != [] ==>
      r.calls == [DeleteAwait(Uuid.Parse(ValueString(state.clusterId)).value, Uuid.Parse(state.id.v).value)]
    ensures r.calls != [] && deleted.Some? ==>
      r.diags == [ErrorDiag(if Is(deleted.value, WaitTimeout) then "Timeout waiting for privatelink to be deleted" else "Delete failed",
                            ErrorText(deleted.value))]
    ensures r.diags == [] <==> r.calls != [] && deleted.None?
    ensures r.write.Untouched?
  {
    if !state.id.Known? then Stop([], ErrorDiag("ID is missing", "ID is required to delete the resource"))
    else match Uuid.Parse(ValueString(state.clusterId))
      case None => Stop([], ErrorDiag("ClusterID is invalid", "Cannot parse cluster ID " + Render(state.clusterId)))
      case Some(nsID) =>
        match Uuid.Parse(state.id.v)
        case None => Stop([], ErrorDiag("ID is invalid", "Cannot parse private link ID " + Render(state.id)))
        case Some(id) =>
          match deleted
          case None => Done([DeleteAwait(nsID, id)], Untouched)
          case Some(e) =>
            if Is(e, WaitTimeout) then Stop([DeleteAwait(nsID, id)], ErrorDiag("Timeout waiting for privatelink to be deleted", ErrorText(e)))
            else Stop([DeleteAwait(nsID, id)], ErrorDiag("Delete failed", ErrorText(e)))
  }

  /**
   * ImportState: the ID must be a UUID and the link must exist; the ID is
   * stored as given, not in canonical form.
   */
  function ImportState(id: string, got: Result<Mgmt.PrivateLinkInfo, Error>): (r: LinkRun)
    ensures Uuid.Parse(id).None? ==> r == Stop([], ErrorDiag("ID is invalid", "Cannot parse private link ID " + id))
    ensures Uuid.Parse(id).Some? ==> r.calls == [GetLink(Uuid.Parse(id).value)]
    ensures r.write.Attributes? <==> Uuid.Parse(id).Some? && got.Ok?
    ensures r.write.Attributes? ==> r.write.values == [("id", id)]
    ensures Uuid.Parse(id).Some? && got.Err? ==> r.diags == [ErrorDiag("Import failed", ErrorText(got.error))]
  {
    match Uuid.Parse(id)
    case None => Stop([], ErrorDiag("ID is invalid", "Cannot parse private link ID " + id))
    case Some(u) =>
      match got
      case Err(e) => Stop([GetLink(u)], ErrorDiag("Import failed", ErrorText(e)))
      case Ok(_) => Done([GetLink(u)], Attributes([("id", id)]))
  }

  /** An imported ID is read back by the same link. */
  lemma ImportThenRead(id: string, info: Mgmt.PrivateLinkInfo, state: PrivateLinkModel, got: Result<Mgmt.PrivateLinkInfo, Error>)
    requires ImportState(id, Ok(info)).write.Attributes?
    requires state.id == Known(ImportState(id, Ok(info)).write.values[0].1)
    ensures Read(state, got).calls == ImportState(id, Ok(info)).calls
  {
  }
}
