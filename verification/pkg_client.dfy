/**
 * pkg/cloudsdk/client.go: the first control-plane client, built directly
 * on pkg/httpx. It authenticates with a bearer header, creates and deletes
 * clusters by name and polls the tenant by name until it appears or
 * vanishes; its update and listing operations are not implemented. What
 * each send returns (Do's error or the response's status) is a parameter.
 */
module PkgClient {
  import opened Wrappers
  import opened GoErrors
  import opened Bytes
  import Httpx
  import Text

  const StatusOK := 200
  const StatusAccepted := 202
  const StatusNotFound := 404

  const AuthHeader := "Authentication"

  /** The header name is already in canonical form, so http.Header stores it as written. */
  lemma AuthHeaderIsCanonical()
    ensures Httpx.CanonicalKey(AuthHeader) == AuthHeader
  {
    var key := AuthHeader;
    assert Httpx.IsToken(key) by {
      forall i | 0 <= i < |key|
        ensures Httpx.IsTokenChar(key[i])
      {
        assert 'a' <= key[i] <= 'z' || 'A' <= key[i] <= 'Z';
      }
    }
    forall i | 0 <= i < |key|
      ensures key[i] == Httpx.CanonicalChar(key, i)
    {
      if i > 0 {
        assert 'a' <= key[i] <= 'z' && key[i - 1] != '-';
      }
    }
    Httpx.CanonicalKeyFixed(key);
  }

  /** ComponentTypePayload, ResourceComponentsPayload and CreateClusterResourcePayload. */
  datatype ComponentTypePayload = ComponentTypePayload(replica: int, componentTypeId: string)

  datatype ResourceComponentsPayload = ResourceComponentsPayload(
    compute: Option<ComponentTypePayload>,
    compactor: Option<ComponentTypePayload>,
    frontend: Option<ComponentTypePayload>,
    etcd: Option<ComponentTypePayload>,
    meta: Option<ComponentTypePayload>)

  datatype CreateClusterResourcePayload = CreateClusterResourcePayload(
    etcdVolumnesSizeGiB: int,
    enableComputeFileCache: bool,
    computeFileCacheSizeGiB: int,
    components: Option<ResourceComponentsPayload>)

  /** The body of a create call; its JSON encoding is a parameter of CreateCluster. */
  datatype CreateClusterPayload = CreateClusterPayload(tenantName: string, resources: Option<CreateClusterResourcePayload>)

  datatype CloudClient = CloudClient(endpoint: string, apiKey: string, http: Httpx.HttpClient)

  /** NewCloudClient: an httpx client on the endpoint whose only default header is the bearer key. */
  function NewCloudClient(endpoint: string, apiKey: string): (c: CloudClient)
    ensures c.endpoint == endpoint && c.apiKey == apiKey
    ensures c.http.base == Httpx.NewHTTPClient(endpoint).base
    ensures Httpx.Values(c.http.headers, AuthHeader) == ["Bearer " + apiKey]
    ensures forall k :: Httpx.CanonicalKey(k) != AuthHeader ==> Httpx.Values(c.http.headers, k) == []
    ensures c.http.headers.Keys == {AuthHeader}
  {
    AuthHeaderIsCanonical();
    CloudClient(endpoint, apiKey, Httpx.SetHeader(Httpx.NewHTTPClient(endpoint), AuthHeader, "Bearer " + apiKey))
  }

  /**
   * Ping: GET /auth/ping; a send error is wrapped, and any status but 200
   * fails with the control-plane message in front.
   */
  method Ping(c: CloudClient, sent: Result<int, Error>) returns (req: Httpx.RequestContext, r: Option<Error>)
    ensures req.verb == "GET" && req.path == "/auth/ping" && req.query == map[]
    ensures forall k :: Httpx.Values(req.headers, k) == Httpx.Values(c.http.headers, k)
    ensures r.None? <==> sent == Ok(StatusOK)
    ensures sent.Err? ==> r == Some(Wrapped(sent.error, "failed to ping endpoint"))
    ensures sent.Ok? && sent.value != StatusOK ==>
      r == Some(Plain(Httpx.StatusText("failed to connect to the RisingWave Cloud control plane", sent.value, [StatusOK])))
  {
    req := Httpx.Get(c.http, "/auth/ping");
    match sent
    case Err(e) =>
      r := Some(Wrapped(e, "failed to ping endpoint"));
    case Ok(status) =>
      r := Httpx.ExpectStatusWithMessage(status, "failed to connect to the RisingWave Cloud control plane", [StatusOK]);
  }

  /** The creation poll's callback: 200 is ready, 404 is not yet, anything else is an error. */
  function CreateTick(status: int): (r: Result<bool, Error>)
    ensures r == Ok(true) <==> status == StatusOK
    ensures r == Ok(false) <==> status == StatusNotFound
    ensures r.Err? ==> r.error == Plain("unexpected status code: " + Text.Decimal(status))
  {
    if status == StatusOK then Ok(true)
    else if status == StatusNotFound then Ok(false)
    else Err(Plain("unexpected status code: " + Text.Decimal(status)))
  }

  /** The deletion poll's callback: 404 is gone, 200 is not yet, anything else is an error. */
  function DeleteTick(status: int): (r: Result<bool, Error>)
    ensures r == Ok(true) <==> status == StatusNotFound
    ensures r == Ok(false) <==> status == StatusOK
    ensures r.Err? ==> r.error == Plain("unexpected status code: " + Text.Decimal(status))
  {
    if status == StatusOK then Ok(false)
    else if status == StatusNotFound then Ok(true)
    else Err(Plain("unexpected status code: " + Text.Decimal(status)))
  }

  /** The two callbacks are mirror images: they swap 200 and 404 and fail alike on the rest. */
  lemma TicksMirror(status: int)
    ensures CreateTick(status).Ok? <==> DeleteTick(status).Ok?
    ensures CreateTick(status).Ok? ==> CreateTick(status).value == !DeleteTick(status).value
    ensures CreateTick(status).Err? ==> CreateTick(status) == DeleteTick(status)
  {
  }

  /**
   * A creation poll succeeds exactly when its ticks answer 404, …, 404 and
   * then 200, with no send error before the 200.
   */
  lemma {:induction false} CreatePollSucceeds(sends: seq<Result<int, Error>>)
    ensures Httpx.PollResult(sends, CreateTick).None? <==>
      exists n :: 0 <= n < |sends| && sends[n] == Ok(StatusOK) && forall j :: 0 <= j < n ==> sends[j] == Ok(StatusNotFound)
    decreases |sends|
  {
    if |sends| > 0 {
      CreatePollSucceeds(sends[1..]);
      if Httpx.PollResult(sends, CreateTick).None? && sends[0] != Ok(StatusOK) {
        var n :| 0 <= n < |sends[1..]| && sends[1..][n] == Ok(StatusOK) && forall j :: 0 <= j < n ==> sends[1..][j] == Ok(StatusNotFound);
        assert sends[n + 1] == Ok(StatusOK);
        assert forall j :: 0 <= j < n + 1 ==> sends[j] == Ok(StatusNotFound) by {
          forall j | 0 <= j < n + 1 ensures sends[j] == Ok(StatusNotFound) {
            if j > 0 { assert sends[j] == sends[1..][j - 1]; }
          }
        }
      }
      if exists n :: 0 <= n < |sends| && sends[n] == Ok(StatusOK) && forall j :: 0 <= j < n ==> sends[j] == Ok(StatusNotFound) {
        var n :| 0 <= n < |sends| && sends[n] == Ok(StatusOK) && forall j :: 0 <= j < n ==> sends[j] == Ok(StatusNotFound);
        if n > 0 {
          assert sends[1..][n - 1] == Ok(StatusOK);
          assert forall j :: 0 <= j < n - 1 ==> sends[1..][j] == Ok(StatusNotFound) by {
            forall j | 0 <= j < n - 1 ensures sends[1..][j] == Ok(StatusNotFound) {
              assert sends[1..][j] == sends[j + 1];
            }
          }
        }
      }
    }
  }

  /**
   * CreateCluster: POST /tenants with the payload's JSON must answer 202;
   * then GET /tenant?tenantName=… is polled until it answers 200. A send or
   * marshalling error is wrapped as a failed create, a wrong status fails
   * with the create message in front, and a failed poll is wrapped.
   */
  method CreateCluster(c: CloudClient, payload: CreateClusterPayload, marshalled: Result<seq<Byte>, Error>,
                       sent: Result<int, Error>, polls: seq<Result<int, Error>>)
    returns (post: Httpx.RequestContext, poll: Option<Httpx.RequestContext>, r: Option<Error>)
    ensures post.verb == "POST" && post.path == "/tenants"
    ensures marshalled.Ok? ==> post.body == Some(marshalled.value)
    ensures marshalled.Err? ==>
      poll.None? && r == Some(Wrapped(Plain(Httpx.ConstructPrefix + ErrorText(marshalled.error) + ";"), "failed to create cluster"))
    ensures poll.Some? <==> marshalled.Ok? && sent == Ok(StatusAccepted)
    ensures poll.Some? ==> poll.value.verb == "GET" && poll.value.path == "/tenant" && poll.value.query == map["tenantName" := payload.tenantName]
    ensures r.None? <==> marshalled.Ok? && sent == Ok(StatusAccepted) && Httpx.PollResult(polls, CreateTick).None?
    ensures poll.Some? && r.Some? ==> r == Some(Wrapped(Httpx.PollResult(polls, CreateTick).value, "failed to wait for the cluster ready"))
    ensures marshalled.Ok? && sent.Ok? && sent.value != StatusAccepted ==>
      r == Some(Plain(Httpx.StatusText("failed to create cluster", sent.value, [StatusAccepted])))
  {
    var start := Httpx.Post(c.http, "/tenants");
    post := Httpx.WithJSON(start, marshalled);
    poll := None;
    match Httpx.Do(post)
    case ConstructError(e) =>
      assert start.errors == [] && post.errors == [marshalled.error];
      assert Httpx.ErrorList(post.errors) == Httpx.ErrorList([]) + ErrorText(marshalled.error) + ";";
      assert Httpx.ErrorList(post.errors) == ErrorText(marshalled.error) + ";";
      assert e == Plain(Httpx.ConstructPrefix + Httpx.ErrorList(post.errors));
      assert Httpx.ConstructPrefix + (ErrorText(marshalled.error) + ";") == Httpx.ConstructPrefix + ErrorText(marshalled.error) + ";";
      r := Some(Wrapped(e, "failed to create cluster"));
      return;
    case Ready(_) =>
    match sent
    case Err(e) =>
      r := Some(Wrapped(e, "failed to create cluster"));
    case Ok(status) =>
      r := Httpx.ExpectStatusWithMessage(status, "failed to create cluster", [StatusAccepted]);
      if r.None? {
        var get := Httpx.Get(c.http, "/tenant");
        get := Httpx.WithQuery(get, "tenantName", payload.tenantName);
        poll := Some(get);
        var waited, _ := Httpx.Poll(polls, CreateTick);
        if waited.Some? {
          r := Some(Wrapped(waited.value, "failed to wait for the cluster ready"));
        }
      }
  }

  /**
   * DeleteCluster: DELETE /tenant?tenantName=… must answer 202; then the
   * same GET is polled until it answers 404. The wait's failure carries the
   * creation poll's text, as written.
   */
  method DeleteCluster(c: CloudClient, name: string, sent: Result<int, Error>, polls: seq<Result<int, Error>>)
    returns (del: Httpx.RequestContext, poll: Option<Httpx.RequestContext>, r: Option<Error>)
    ensures del.verb == "DELETE" && del.path == "/tenant" && del.query == map["tenantName" := name]
    ensures poll.Some? <==> sent == Ok(StatusAccepted)
    ensures poll.Some? ==> poll.value.verb == "GET" && poll.value.path == "/tenant" && poll.value.query == del.query
    ensures r.None? <==> sent == Ok(StatusAccepted) && Httpx.PollResult(polls, DeleteTick).None?
    ensures sent.Err? ==> r == Some(Wrapped(sent.error, "failed to delete cluster"))
    ensures poll.Some? && r.Some? ==> r == Some(Wrapped(Httpx.PollResult(polls, DeleteTick).value, "failed to wait for the cluster ready"))
    ensures sent.Ok? && sent.value != StatusAccepted ==>
      r == Some(Plain(Httpx.StatusText("failed to delete cluster", sent.value, [StatusAccepted])))
  {
    del := Httpx.Delete(c.http, "/tenant");
    del := Httpx.WithQuery(del, "tenantName", name);
    poll := None;
    match sent
    case Err(e) =>
      r := Some(Wrapped(e, "failed to delete cluster"));
    case Ok(status) =>
      r := Httpx.ExpectStatusWithMessage(status, "failed to delete cluster", [StatusAccepted]);
      if r.None? {
        var get := Httpx.Get(c.http, "/tenant");
        get := Httpx.WithQuery(get, "tenantName", name);
        poll := Some(get);
        var waited, _ := Httpx.Poll(polls, DeleteTick);
        if waited.Some? {
          r := Some(Wrapped(waited.value, "failed to wait for the cluster ready"));
        }
      }
  }

  /** The operations the client declares but does not implement. */
  datatype Unimplemented =
    | UpdateClusterImage(name: string, version: string)
    | UpdateClusterResources(name: string)
    | GetComponentTypes

  /** Each of them fails with "Unimplemented", whatever its arguments, and sends nothing. */
  function Stub(op: Unimplemented): (r: Option<Error>)
    ensures r.Some? && r.value.Plain? && ErrorText(r.value) == "Unimplemented"
  {
    Some(Plain("Unimplemented"))
  }
}
