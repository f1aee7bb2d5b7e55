/**
 * internal/provider/provider.go: Configure, which resolves the endpoint and
 * the credentials from the provider block and the environment, then builds
 * either the real account service client of pkg/cloudsdk, checked with a
 * ping, or the fake one. The environment variables and the two requests'
 * outcomes are parameters. The API secret is read from api_key, as written;
 * ConfigureIntended reads it from api_secret.
 */
module ProviderConfig {
  import opened Wrappers
  import opened GoErrors
  import opened Tf
  import opened Framework
  import Defaults
  import Mgmt
  import Acc
  import PkgAccount

  const DefaultEndpoint := "https://canary-useast2-acc.risingwave.cloud/api/v1"

  /** RisingWaveCloudProviderModel: the provider block. */
  datatype ProviderModel = ProviderModel(apiKey: Value<string>, apiSecret: Value<string>, endpoint: Value<string>)

  /** os.Getenv of RWC_API_KEY, RWC_API_SECRET, RWC_ENDPOINT and RWC_MOCK ("" when unset). */
  datatype Env = Env(apiKey: string, apiSecret: string, endpoint: string, mock: string)

  /** The client handed to resources and data sources. */
  datatype Client = Live(account: PkgAccount.AccountServiceClient) | Mock

  /** The requests Configure makes: the region listing that builds the client, then the ping. */
  datatype Call = BuildClient(endpoint: string, apiKey: string, apiSecret: string) | Ping

  datatype Configured = Configured(calls: seq<Call>, diags: seq<Diagnostic>, client: Option<Client>)

  /** The endpoint: the provider block's if set, else RWC_ENDPOINT if set, else the default. */
  function Endpoint(config: ProviderModel, env: Env): (e: string)
    ensures ValueString(config.endpoint) != "" ==> e == ValueString(config.endpoint)
    ensures ValueString(config.endpoint) == "" && env.endpoint != "" ==> e == env.endpoint
    ensures ValueString(config.endpoint) == "" && env.endpoint == "" ==> e == DefaultEndpoint
  {
    var e := Defaults.String(ValueString(config.endpoint), env.endpoint);
    if |e| == 0 then DefaultEndpoint else e
  }

  /** The warning issued when an endpoint is supplied, by the block or the environment. */
  function EndpointWarning(config: ProviderModel, env: Env): (w: Option<Diagnostic>)
    ensures w.Some? <==> ValueString(config.endpoint) != "" || env.endpoint != ""
    ensures w.Some? ==> w.value.severity == SeverityWarning
  {
    var e := Defaults.String(ValueString(config.endpoint), env.endpoint);
    if |e| == 0 then None
    else Some(WarningDiag("API endpoint is provided", "Endpoint is only for internal testing. Current endpoint: " + e))
  }

  /** The API key: the block's api_key, else RWC_API_KEY. */
  function ApiKey(config: ProviderModel, env: Env): string
  {
    Defaults.String(ValueString(config.apiKey), env.apiKey)
  }

  /** The API secret, as written: the block's api_KEY, else RWC_API_SECRET; api_secret is never read. */
  function ApiSecret(config: ProviderModel, env: Env): string
  {
    Defaults.String(ValueString(config.apiKey), env.apiSecret)
  }

  const MissingKey := ErrorDiag("Missing API Key",
    "RisingWave Cloud API Key is required to setup the provider. "
    + "This can be set either in the provider configuration or in the environment variable RWC_API_KEY. "
    + "Please get your API Key in https://cloud.risingwave.com/")

  const MissingSecret := ErrorDiag("Missing API Secret",
    "RisingWave Cloud API Secret is required to setup the provider. "
    + "This can be set either in the provider configuration or in the environment variable RWC_API_SECRET. "
    + "Please get your API Secret in https://cloud.risingwave.com/")

  /** The diagnostics of a failed ping: an invalid credential, or anything else. */
  function PingFailure(e: Error): (d: Diagnostic)
    ensures Is(e, PkgInvalidCredential) <==> d.summary == "Invalid credentials"
  {
    if Is(e, PkgInvalidCredential) then ErrorDiag("Invalid credentials", "Please check your API key or API secret")
    else ErrorDiag("Failed to connect to the endpoint", "Please check your network connection or the endpoint provided")
  }

  /** The client stage, once the credentials are present. */
  function Connect(endpoint: string, key: string, secret: string, env: Env,
                   regions: Mgmt.Call<seq<Acc.Region>>, ping: Mgmt.Call<()>): (r: Configured)
    ensures env.mock != "" ==> r == Configured([], [], Some(Mock))
    ensures env.mock == "" ==> |r.calls| >= 1 && r.calls[0] == BuildClient(endpoint, key, secret)
    ensures env.mock == "" && PkgAccount.NewAccountServiceClient(endpoint, key, secret, regions).Err? ==>
      r == Configured([BuildClient(endpoint, key, secret)],
        [ErrorDiag("Unexpected error", "Failed to build cloud SDK client: "
                   + ErrorText(PkgAccount.NewAccountServiceClient(endpoint, key, secret, regions).error))], None)
    ensures env.mock == "" && PkgAccount.NewAccountServiceClient(endpoint, key, secret, regions).Ok? ==>
      r.calls == [BuildClient(endpoint, key, secret), Ping]
      && (PkgAccount.Ping(ping).Some? ==> r.diags == [PingFailure(PkgAccount.Ping(ping).value)] && r.client.None?)
      && (PkgAccount.Ping(ping).None? ==> r.diags == [] && r.client == Some(Live(PkgAccount.NewAccountServiceClient(endpoint, key, secret, regions).value)))
  {
    if |env.mock| != 0 then Configured([], [], Some(Mock))
    else
      match PkgAccount.NewAccountServiceClient(endpoint, key, secret, regions)
      case Err(e) => Configured([BuildClient(endpoint, key, secret)],
        [ErrorDiag("Unexpected error", "Failed to build cloud SDK client: " + ErrorText(e))], None)
      case Ok(acc) =>
        match PkgAccount.Ping(ping)
        case Some(e) => Configured([BuildClient(endpoint, key, secret), Ping], [PingFailure(e)], None)
        case None => Configured([BuildClient(endpoint, key, secret), Ping], [], Some(Live(acc)))
  }

  /**
   * Configure: the endpoint warning comes first; a missing key, then a
   * missing secret, stops before any client is built, in mock mode too.
   */
  function Configure(config: ProviderModel, env: Env, regions: Mgmt.Call<seq<Acc.Region>>, ping: Mgmt.Call<()>): (r: Configured)
    ensures var warn := if EndpointWarning(config, env).Some? then [EndpointWarning(config, env).value] else [];
      |warn| <= |r.diags| && r.diags[..|warn|] == warn
    ensures ApiKey(config, env) == "" ==>
      r.calls == [] && r.client.None? && |r.diags| >= 1 && r.diags[|r.diags| - 1] == MissingKey
    ensures ApiKey(config, env) != "" && ApiSecret(config, env) == "" ==>
      r.calls == [] && r.client.None? && |r.diags| >= 1 && r.diags[|r.diags| - 1] == MissingSecret
    ensures ApiKey(config, env) != "" && ApiSecret(config, env) != "" ==>
      var c := Connect(Endpoint(config, env), ApiKey(config, env), ApiSecret(config, env), env, regions, ping);
      r.calls == c.calls && r.client == c.client
    ensures r.client.Some? ==> forall i :: 0 <= i < |r.diags| ==> r.diags[i].severity == SeverityWarning
  {
    ConfigureWith(config, env, ApiSecret(config, env), regions, ping)
  }

  /** Configure's steps once the secret has been resolved, by whichever rule. */
  function ConfigureWith(config: ProviderModel, env: Env, secret: string,
                         regions: Mgmt.Call<seq<Acc.Region>>, ping: Mgmt.Call<()>): (r: Configured)
    ensures var warn := if EndpointWarning(config, env).Some? then [EndpointWarning(config, env).value] else [];
      |warn| <= |r.diags| && r.diags[..|warn|] == warn
    ensures ApiKey(config, env) == "" ==>
      r.calls == [] && r.client.None? && |r.diags| >= 1 && r.diags[|r.diags| - 1] == MissingKey
    ensures ApiKey(config, env) != "" && secret == "" ==>
      r.calls == [] && r.client.None? && |r.diags| >= 1 && r.diags[|r.diags| - 1] == MissingSecret
    ensures ApiKey(config, env) != "" && secret != "" ==>
      var c := Connect(Endpoint(config, env), ApiKey(config, env), secret, env, regions, ping);
      r.calls == c.calls && r.client == c.client
    ensures r.client.Some? ==> forall i :: 0 <= i < |r.diags| ==> r.diags[i].severity == SeverityWarning
  {
    var warn := if EndpointWarning(config, env).Some? then [EndpointWarning(config, env).value] else [];
    var key := ApiKey(config, env);
    if |key| == 0 then Configured([], warn + [MissingKey], None)
    else if |secret| == 0 then Configured([], warn + [MissingSecret], None)
    else
      var c := Connect(Endpoint(config, env), key, secret, env, regions, ping);
      Configured(c.calls, warn + c.diags, c.client)
  }

  /** The API secret as evidently intended: the block's api_secret, else RWC_API_SECRET. */
  function ApiSecretIntended(config: ProviderModel, env: Env): string
  {
    Defaults.String(ValueString(config.apiSecret), env.apiSecret)
  }

  /**
   * Configure with the secret read from api_secret: a missing secret is
   * reported only when neither api_secret nor RWC_API_SECRET is set, and
   * the secret sent is the block's api_secret whenever it is set.
   */
  function ConfigureIntended(config: ProviderModel, env: Env, regions: Mgmt.Call<seq<Acc.Region>>, ping: Mgmt.Call<()>): (r: Configured)
    ensures ApiKey(config, env) != "" && ValueString(config.apiSecret) == "" && env.apiSecret == "" ==>
      r.calls == [] && r.client.None? && |r.diags| >= 1 && r.diags[|r.diags| - 1] == MissingSecret
    ensures ApiKey(config, env) != "" && ValueString(config.apiSecret) != "" && env.mock == "" ==>
      |r.calls| >= 1 && r.calls[0] == BuildClient(Endpoint(config, env), ApiKey(config, env), ValueString(config.apiSecret))
    ensures ApiKey(config, env) != "" && ValueString(config.apiSecret) == "" && env.apiSecret != "" && env.mock == "" ==>
      |r.calls| >= 1 && r.calls[0] == BuildClient(Endpoint(config, env), ApiKey(config, env), env.apiSecret)
  {
    ConfigureWith(config, env, ApiSecretIntended(config, env), regions, ping)
  }

  /**
   * The api_secret attribute has no effect on Configure; when api_key is
   * set in the block, the secret sent is that same key.
   */
  lemma SecretIsReadFromApiKey(config: ProviderModel, env: Env, secret: Value<string>,
                               regions: Mgmt.Call<seq<Acc.Region>>, ping: Mgmt.Call<()>)
    ensures Configure(config.(apiSecret := secret), env, regions, ping) == Configure(config, env, regions, ping)
    ensures ValueString(config.apiKey) != "" && env.mock == "" ==>
      Configure(config, env, regions, ping).calls[0]
        == BuildClient(Endpoint(config, env), ValueString(config.apiKey), ValueString(config.apiKey))
  {
    var other := config.(apiSecret := secret);
    assert ApiKey(other, env) == ApiKey(config, env) && ApiSecret(other, env) == ApiSecret(config, env);
    assert Endpoint(other, env) == Endpoint(config, env) && EndpointWarning(other, env) == EndpointWarning(config, env);
    assert Configure(other, env, regions, ping) == ConfigureWith(other, env, ApiSecret(config, env), regions, ping);
    if ValueString(config.apiKey) != "" && env.mock == "" {
      assert ApiKey(config, env) == ValueString(config.apiKey) == ApiSecret(config, env);
    }
  }

  /**
   * Without an api_key or api_secret in the block both readings take the
   * credentials from the environment, so the two Configures agree.
   */
  lemma IntendedAgreesWithoutBlockCredentials(config: ProviderModel, env: Env,
                                               regions: Mgmt.Call<seq<Acc.Region>>, ping: Mgmt.Call<()>)
    requires ValueString(config.apiKey) == "" && ValueString(config.apiSecret) == ""
    ensures ConfigureIntended(config, env, regions, ping) == Configure(config, env, regions, ping)
  {
    assert ApiSecretIntended(config, env) == env.apiSecret == ApiSecret(config, env);
  }

  /**
   * With a block api_key and a different block api_secret, the client
   * Configure builds sends the key as the secret, while the intended one
   * sends the api_secret.
   */
  lemma SecretDiffersFromIntended(config: ProviderModel, env: Env,
                                  regions: Mgmt.Call<seq<Acc.Region>>, ping: Mgmt.Call<()>)
    requires ValueString(config.apiKey) != "" && ValueString(config.apiSecret) != ""
    requires ValueString(config.apiSecret) != ValueString(config.apiKey) && env.mock == ""
    ensures Configure(config, env, regions, ping).calls[0].apiSecret == ValueString(config.apiKey)
    ensures ConfigureIntended(config, env, regions, ping).calls[0].apiSecret == ValueString(config.apiSecret)
    ensures Configure(config, env, regions, ping).calls != ConfigureIntended(config, env, regions, ping).calls
  {
    SecretIsReadFromApiKey(config, env, config.apiSecret, regions, ping);
  }
}
