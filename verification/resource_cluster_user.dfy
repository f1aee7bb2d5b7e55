/**
 * internal/provider/resource_cluster_user.go: the risingwavecloud_cluster_user
 * resource. Its ID is "<cluster NsID>.<username>"; the password is never
 * read back from the API, so the state keeps the one from the plan. The
 * SDK calls' answers are parameters and the calls made are recorded.
 */
module ResourceClusterUser {
  import opened Wrappers
  import opened GoErrors
  import opened Tf
  import opened Framework
  import Uuid
  import Text
  import Mgmt

  /** ClusterUserModel: the resource's attributes as the framework holds them. */
  datatype ClusterUserModel = ClusterUserModel(
    id: Value<string>,
    clusterId: Value<string>,
    username: Value<string>,
    password: Value<string>,
    createDb: Value<bool>,
    superUser: Value<bool>)

  /** The client calls the resource makes. */
  datatype Call =
    | CreateUser(nsID: Uuid.Uuid, username: string, password: string, createDb: bool, superUser: bool)
    | GetUser(nsID: Uuid.Uuid, username: string)
    | UpdatePassword(nsID: Uuid.Uuid, username: string, password: string)
    | DeleteUser(nsID: Uuid.Uuid, username: string)

  type UserRun = Run<Call, ClusterUserModel>

  /** The resource ID the resource writes: the NsID's text, a dot, and the username. */
  function FormatId(nsID: Uuid.Uuid, username: string): string
  {
    Uuid.ToString(nsID) + "." + username
  }

  /**
   * parseClusterUserIdentifier: the ID must split on '.' into exactly two
   * parts, the first a UUID; the second is the username as it stands.
   */
  function ParseIdentifier(id: string): (r: Result<(Uuid.Uuid, string), Diagnostic>)
    ensures r.Ok? ==> '.' !in r.value.1
    ensures |Text.Split(id, '.')| != 2 ==> r == Err(ErrorDiag("Invalid ID", "Cannot parse cluster user ID: " + id))
    ensures |Text.Split(id, '.')| == 2 && Uuid.Parse(Text.Split(id, '.')[0]).None? ==>
      r == Err(ErrorDiag("Invalid ID", "Cannot extract cluster ID from cluster user ID: " + id))
  {
    var parts := Text.Split(id, '.');
    if |parts| != 2 then Err(ErrorDiag("Invalid ID", "Cannot parse cluster user ID: " + id))
    else match Uuid.Parse(parts[0])
      case None => Err(ErrorDiag("Invalid ID", "Cannot extract cluster ID from cluster user ID: " + id))
      case Some(nsID) => Ok((nsID, parts[1]))
  }

  /**
   * Round trip: the ID written for a user parses back to the same NsID and
   * username exactly when the username has no '.'; a dotted username gives
   * an ID that never parses.
   */
  lemma ParseFormatted(nsID: Uuid.Uuid, username: string)
    ensures '.' !in username ==> ParseIdentifier(FormatId(nsID, username)) == Ok((nsID, username))
    ensures '.' in username ==> ParseIdentifier(FormatId(nsID, username)).Err?
  {
    var text := Uuid.ToString(nsID);
    assert FormatId(nsID, username) == text + ['.'] + username;
    Text.SplitAfterPrefix(text, username, '.');
    if '.' !in username {
      Text.SplitWithoutSeparator(username, '.');
      Uuid.ParseToString(nsID);
    }
  }

  /** A create_db or super_user flag: false when unknown, otherwise its value. */
  function CreateFlag(x: Value<bool>): (b: bool)
    ensures b <==> x == Known(true)
  {
    if !x.Unknown? then ValueBool(x) else false
  }

  /**
   * clusterUserToDataModel: ID, cluster ID, flags and username come from
   * the API's user; the password is left as it was.
   */
  function ToDataModel(nsID: Uuid.Uuid, user: Mgmt.DBUser, data: ClusterUserModel): (r: ClusterUserModel)
    ensures r.password == data.password
    ensures r.username == Known(user.username) && r.clusterId == Known(Uuid.ToString(nsID))
    ensures r.createDb == Known(user.usecreatedb) && r.superUser == Known(user.usesuper)
    ensures ParseIdentifier(ValueString(r.id)) == Ok((nsID, user.username)) <==> '.' !in user.username
  {
    ParseFormatted(nsID, user.username);
    ClusterUserModel(
      Known(FormatId(nsID, user.username)),
      Known(Uuid.ToString(nsID)),
      Known(user.username),
      data.password,
      Known(user.usecreatedb),
      Known(user.usesuper))
  }

  /** Converting again from the same user changes nothing. */
  lemma ToDataModelIdempotent(nsID: Uuid.Uuid, user: Mgmt.DBUser, data: ClusterUserModel)
    ensures ToDataModel(nsID, user, ToDataModel(nsID, user, data)) == ToDataModel(nsID, user, data)
  {
  }

  /** Create gets past its checks: a username, a password and a cluster ID that parses. */
  predicate CreateAccepts(plan: ClusterUserModel)
  {
    |ValueString(plan.username)| > 0 && |ValueString(plan.password)| > 0
    && Uuid.Parse(ValueString(plan.clusterId)).Some?
  }

  /**
   * Create: an empty username, an empty password and an unparseable
   * cluster_id are refused in that order, before any client call (the
   * password message's detail repeats the username's). Then one create
   * call; a nil user with a nil error is dereferenced.
   */
  function Create(plan: ClusterUserModel, created: Result<Option<Mgmt.DBUser>, Error>): (r: UserRun)
    ensures r.calls == [] <==> !CreateAccepts(plan)
    ensures |ValueString(plan.username)| == 0 ==> r == Stop([], ErrorDiag("Username is required", "Username is required"))
    ensures |ValueString(plan.username)| > 0 && |ValueString(plan.password)| == 0 ==>
      r == Stop([], ErrorDiag("Password is required", "Username is required"))
    ensures |ValueString(plan.username)| > 0 && |ValueString(plan.password)| > 0 && Uuid.Parse(ValueString(plan.clusterId)).None? ==>
      r == Stop([], ErrorDiag("Invalid cluster ID", "Cannot parse cluster ID: " + ValueString(plan.clusterId)))
    ensures CreateAccepts(plan) ==>
      r.calls == [CreateUser(Uuid.Parse(ValueString(plan.clusterId)).value, ValueString(plan.username),
                             ValueString(plan.password), CreateFlag(plan.createDb), CreateFlag(plan.superUser))]
    ensures r.write.Saved? <==> CreateAccepts(plan) && created.Ok? && created.value.Some?
    ensures r.write.Saved? ==> r.write.model.password == plan.password
    ensures CreateAccepts(plan) && created.Err? ==> r.diags == [ErrorDiag("Unable to create cluster user", ErrorText(created.error))]
    ensures r.panic.Some? <==> CreateAccepts(plan) && created == Ok(None)
  {
    var username := ValueString(plan.username);
    var password := ValueString(plan.password);
    var clusterId := ValueString(plan.clusterId);
    if |username| == 0 then Stop([], ErrorDiag("Username is required", "Username is required"))
    else if |password| == 0 then Stop([], ErrorDiag("Password is required", "Username is required"))
    else match Uuid.Parse(clusterId)
      case None => Stop([], ErrorDiag("Invalid cluster ID", "Cannot parse cluster ID: " + clusterId))
      case Some(nsID) =>
        var calls := [CreateUser(nsID, username, password, CreateFlag(plan.createDb), CreateFlag(plan.superUser))];
        match created
        case Err(e) => Stop(calls, ErrorDiag("Unable to create cluster user", ErrorText(e)))
        case Ok(None) => Crash(calls, NilDereference)
        case Ok(Some(user)) => Done(calls, Saved(ToDataModel(nsID, user, plan)))
  }

  /**
   * Read: the ID must be known and parse; the user is then looked up by the
   * parsed NsID and username, and the stored password is kept.
   */
  function Read(state: ClusterUserModel, got: Outcome<Mgmt.DBUser>): (r: UserRun)
    ensures !state.id.Known? ==> r == Stop([], ErrorDiag("ID is missing", "ID is required to read the resource"))
    ensures state.id.Known? && ParseIdentifier(state.id.v).Err? ==> r == Stop([], ParseIdentifier(state.id.v).error)
    ensures state.id.Known? && ParseIdentifier(state.id.v).Ok? ==>
      r.calls == [GetUser(ParseIdentifier(state.id.v).value.0, ParseIdentifier(state.id.v).value.1)]
    ensures r.write.Saved? <==> state.id.Known? && ParseIdentifier(state.id.v).Ok? && got.Return?
    ensures r.write.Saved? ==> r.write.model.password == state.password && r.write.model.username == Known(got.value.username)
  {
    if !state.id.Known? then Stop([], ErrorDiag("ID is missing", "ID is required to read the resource"))
    else match ParseIdentifier(state.id.v)
      case Err(d) => Stop([], d)
      case Ok((nsID, username)) =>
        var calls := [GetUser(nsID, username)];
        match got
        case Fail(e) => Stop(calls, ErrorDiag("Unable to read cluster user", ErrorText(e)))
        case Panic(p) => Crash(calls, p)
        case Return(user) => Done(calls, Saved(ToDataModel(nsID, user, state)))
  }

  /**
   * A user created with a dot-free name reads back unchanged: Read looks it
   * up under the NsID and name Create used and saves the same state. A
   * dotted name is created but can never be read.
   */
  lemma ReadAfterCreate(plan: ClusterUserModel, user: Mgmt.DBUser)
    requires Create(plan, Ok(Some(user))).write.Saved?
    ensures var m := Create(plan, Ok(Some(user))).write.model;
      var nsID := Uuid.Parse(ValueString(plan.clusterId)).value;
      ('.' !in user.username ==> Read(m, Return(user)) == Done([GetUser(nsID, user.username)], Saved(m)))
      && ('.' in user.username ==> Read(m, Return(user)).calls == [] && HasError(Read(m, Return(user)).diags))
  {
    var m := Create(plan, Ok(Some(user))).write.model;
    var nsID := Uuid.Parse(ValueString(plan.clusterId)).value;
    ParseFormatted(nsID, user.username);
    if '.' in user.username {
      assert Read(m, Return(user)).diags[0].severity == SeverityError;
    }
  }

  /** Changed immutable fields, checked in the order Update checks them. */
  function ImmutableViolation(plan: ClusterUserModel, state: ClusterUserModel): (d: Option<Diagnostic>)
    ensures d.None? <==> plan.username == state.username && plan.createDb == state.createDb && plan.superUser == state.superUser
  {
    if plan.username != state.username then
      Some(ErrorDiag("Cannot update immutable field",
        "Username cannot be updated, previous: " + Render(state.username) + ", new: " + Render(plan.username)))
    else if plan.createDb != state.createDb then
      Some(ErrorDiag("Cannot update immutable field",
        "CreateDB cannot be updated, previous: " + RenderBool(state.createDb) + ", new: " + RenderBool(plan.createDb)))
    else if plan.superUser != state.superUser then
      Some(ErrorDiag("Cannot update immutable field",
        "SuperUser cannot be updated, previous: " + RenderBool(state.superUser) + ", new: " + RenderBool(plan.superUser)))
    else None
  }

  /** How many password updates a sequence of calls holds. */
  function PasswordUpdates(calls: seq<Call>): nat
  {
    if |calls| == 0 then 0
    else (if calls[0].UpdatePassword? then 1 else 0) + PasswordUpdates(calls[1..])
  }

  /**
   * Update once the stored ID has parsed and no immutable field changed: a
   * changed password is sent once, for the NsID and username of the stored
   * ID; the user is then re-read under the stored username attribute, and
   * the plan's password is kept.
   */
  function UpdateAccepted(plan: ClusterUserModel, state: ClusterUserModel, nsID: Uuid.Uuid, username: string,
                          changed: Option<Error>, got: Outcome<Mgmt.DBUser>): (r: UserRun)
    ensures PasswordUpdates(r.calls) == (if plan.password != state.password then 1 else 0)
    ensures plan.password != state.password ==> r.calls[0] == UpdatePassword(nsID, username, ValueString(plan.password))
    ensures plan.password != state.password && changed.Some? ==> r.calls == [r.calls[0]] && r.diags != []
    ensures r.write.Saved? ==> r.write.model.password == plan.password && got.Return?
  {
    var sent := if plan.password != state.password then [UpdatePassword(nsID, username, ValueString(plan.password))] else [];
    if plan.password != state.password && changed.Some? then
      Stop(sent, ErrorDiag("Unable to update cluster user password", ErrorText(changed.value)))
    else
      var calls := sent + [GetUser(nsID, ValueString(state.username))];
      assert PasswordUpdates(calls) == PasswordUpdates(sent) by {
        assert [GetUser(nsID, ValueString(state.username))][1..] == [];
        if |sent| > 0 {
          assert calls[1..] == [GetUser(nsID, ValueString(state.username))];
          assert sent[1..] == [];
        }
      }
      match got
      case Fail(e) => Stop(calls, ErrorDiag("Unable to read cluster user", ErrorText(e)))
      case Panic(p) => Crash(calls, p)
      case Return(user) => Done(calls, Saved(ToDataModel(nsID, user, plan)))
  }

  /**
   * Update: the stored ID must parse, and a change to username, create_db
   * or super_user is refused, first one found, with no client call.
   */
  function Update(plan: ClusterUserModel, state: ClusterUserModel, changed: Option<Error>, got: Outcome<Mgmt.DBUser>): (r: UserRun)
    ensures ParseIdentifier(ValueString(state.id)).Err? ==> r == Stop([], ParseIdentifier(ValueString(state.id)).error)
    ensures ImmutableViolation(plan, state).Some? ==> r.calls == [] && r.diags != [] && r.write.Untouched?
    ensures ParseIdentifier(ValueString(state.id)).Ok? && ImmutableViolation(plan, state).Some? ==>
      r == Stop([], ImmutableViolation(plan, state).value)
    ensures ParseIdentifier(ValueString(state.id)).Ok? && ImmutableViolation(plan, state).None? ==>
      var (nsID, username) := ParseIdentifier(ValueString(state.id)).value;
      r == UpdateAccepted(plan, state, nsID, username, changed, got)
  {
    match ParseIdentifier(ValueString(state.id))
    case Err(d) => Stop([], d)
    case Ok((nsID, username)) =>
      match ImmutableViolation(plan, state)
      case Some(d) => Stop([], d)
      case None => UpdateAccepted(plan, state, nsID, username, changed, got)
  }

  /** Delete: the ID must be known and parse before the one delete call. */
  function Delete(state: ClusterUserModel, deleted: Option<Error>): (r: UserRun)
    ensures !state.id.Known? ==> r == Stop([], ErrorDiag("ID is missing", "ID is required to delete the resource"))
    ensures r.calls != [] <==> state.id.Known? && ParseIdentifier(state.id.v).Ok?
    ensures r.calls != [] ==> r.calls == [DeleteUser(ParseIdentifier(state.id.v).value.0, ParseIdentifier(state.id.v).value.1)]
    ensures r.diags == [] <==> r.calls != [] && deleted.None?
    ensures r.write.Untouched?
  {
    if !state.id.Known? then Stop([], ErrorDiag("ID is missing", "ID is required to delete the resource"))
    else match ParseIdentifier(state.id.v)
      case Err(d) => Stop([], d)
      case Ok((nsID, username)) =>
        var calls := [DeleteUser(nsID, username)];
        match deleted
        case Some(e) => Stop(calls, ErrorDiag("Unable to delete cluster user", ErrorText(e)))
        case None => Done(calls, Untouched)
  }

  /** ImportState: the ID is stored only once the user it names is found. */
  function ImportState(id: string, got: Outcome<Mgmt.DBUser>): (r: UserRun)
    ensures r.write.Attributes? <==> ParseIdentifier(id).Ok? && got.Return?
    ensures r.write.Attributes? ==> r.write.values == [("id", id)]
    ensures ParseIdentifier(id).Err? ==> r == Stop([], ParseIdentifier(id).error)
    ensures ParseIdentifier(id).Ok? ==> r.calls == [GetUser(ParseIdentifier(id).value.0, ParseIdentifier(id).value.1)]
  {
    match ParseIdentifier(id)
    case Err(d) => Stop([], d)
    case Ok((nsID, username)) =>
      var calls := [GetUser(nsID, username)];
      match got
      case Fail(e) => Stop(calls, ErrorDiag("Unable to import cluster user with ID: " + id, ErrorText(e)))
      case Panic(p) => Crash(calls, p)
      case Return(_) => Done(calls, Attributes([("id", id)]))
  }

  /** Importing the ID the resource writes looks up that very user, if its name has no dot. */
  lemma ImportFormatted(nsID: Uuid.Uuid, username: string, got: Outcome<Mgmt.DBUser>)
    requires '.' !in username
    ensures ImportState(FormatId(nsID, username), got).calls == [GetUser(nsID, username)]
    ensures got.Return? ==> ImportState(FormatId(nsID, username), got).write == Attributes([("id", FormatId(nsID, username))])
  {
    ParseFormatted(nsID, username);
  }
}
