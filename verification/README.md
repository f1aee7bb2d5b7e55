# RisingWave Cloud Terraform provider — a Dafny model

This project models the decision logic of the RisingWave Cloud Terraform
provider and of its cloud SDKs, and proves properties of that model. The
provider manages clusters (tenants), cluster users and private links through
the RisingWave Cloud account and region services.

What is modelled, one Dafny module per source file:

- **Cluster-ID encoder** (`RwCloud`, `Base64`): the base-32 bit
  packing of a cluster's namespace UUID behind a `10` prefix, with Go's 64-bit
  `uint` buffer written out as arithmetic modulo 2^64, and the Base64 wrapping of section 4 of
  RFC 4648. The digits use the lowercase "base32hex" alphabet of section 7 of
  RFC 4648.
- **Provider layer** (`ProviderConfig`, `ComponentTypeSource`,
  `ResourceCluster`, `LegacyCluster`, `ResourceClusterUser`,
  `ResourcePrivateLink`, `ClusterSpec`): the provider's Configure, the
  component-type data source, and each resource's Create, Read, Update, Delete
  and ImportState. Each is a function from the plan or state and the client's
  answers to a `Run`: the client calls made, in order, the diagnostics, the
  state written, and any nil-pointer panic.
- **Cloud SDKs** (`InternalCloudSdk`, `InternalRegion`, `InternalApigen`,
  `PkgAccount`, `PkgRegion`, `PkgClient`, `PkgApigen`, `Httpx`): client
  construction from the region listing, status-code checks, lookups by
  namespace ID and by name, the per-tick decisions of every polling wait, tier
  and component-type selection, and the non-network half of the HTTP request
  builder.
- **Fake backends** (`FakeState`, `Fake`, `PkgFake`): the in-memory stand-ins
  for the cloud, as state transformers over maps and slices.
- **get-key script** (`GetKey`): the request and decision sequence of
  scripts/get-key.py.
- Shared vocabulary: `Wrappers`, `GoErrors` (Go error values with `errors.Is`
  and identity comparison), `Uuid`, `Tf` (null, unknown and known Terraform
  values), `Framework` (diagnostics and runs), `Mgmt` and `Acc` (the API
  records), `GoMaps`, `Text`, `Arith`, `Bytes`, `Defaults`, `Utils`.

Conventions:

- The order in which Go ranges over a map is a parameter `order`, constrained
  by `GoMaps.IsOrder` to list each key exactly once. Properties that hold for
  every order are stated for every such `order`.
- A nil-pointer dereference and a write to a nil map are `Panic` outcomes.
- Network answers are parameters (`Mgmt.Call`: a transport error or a status
  code with an optional body). A polling wait is modelled by the decision it
  makes on each tick, and its final error is a parameter.
- The snapshot holds code from several revisions. Each file is modelled
  against the signatures it calls. Where a file calls a name that its imports
  do not define, "## Left out" says which reading the model adopts. Where two
  revisions disagree, each gets its own module; `LegacyCluster` is
  internal/provider/cluster.go.
- Bugs are modelled as written:
  - the inverted conditions in internal/provider/cluster.go;
  - `api_secret` being read from `api_key` in internal/provider/provider.go;
  - the conversion diagnostics that Create in
    internal/provider/resource_cluster.go ignores.

## Model

| member | source | states |
|---|---|---|
| ProviderConfig.Endpoint | internal/provider/provider.go:81-85 | the block's endpoint wins, then RWC_ENDPOINT, and only when both are empty the canary default |
| ProviderConfig.EndpointWarning | internal/provider/provider.go:83-90 | a warning is issued exactly when the block or the environment supplies an endpoint, and it is a warning, not an error |
| ProviderConfig.PingFailure | internal/provider/provider.go:125-137 | "Invalid credentials" is reported exactly when the ping error is ErrInvalidCredential under its wrappers |
| ProviderConfig.Connect | internal/provider/provider.go:114-145 | RWC_MOCK set gives the fake client with no request; otherwise the client is built first, a build error stops before the ping, and only a clean ping hands out the live client |
| ProviderConfig.Configure | internal/provider/provider.go:78-146 | the endpoint warning always comes first; a missing key and then a missing secret end with that error and no request, in mock mode too; a client is handed out only when every diagnostic is a warning |
| ProviderConfig.SecretIsReadFromApiKey | internal/provider/provider.go:79-80 | the api_secret attribute never changes the outcome, and a block api_key is sent as both key and secret |
| ProviderConfig.ConfigureIntended | internal/provider/provider.go:78-146 | with the secret read from api_secret: a missing secret is reported only when neither api_secret nor RWC_API_SECRET is set; the client is built with the block's api_secret when set, else with RWC_API_SECRET |
| ProviderConfig.IntendedAgreesWithoutBlockCredentials | internal/provider/provider.go:79-80 | with neither api_key nor api_secret in the block, Configure and the corrected Configure give the same outcome |
| ProviderConfig.SecretDiffersFromIntended | internal/provider/provider.go:79-80 | a block with an api_key and a different api_secret has Configure send the key as the secret where the corrected Configure sends the api_secret |
| ComponentTypeSource.FirstMatch | internal/provider/data_source_component_type.go:168-175 | the loop with its break selects the first type whose CPU text is the decimal vcpu and whose memory is "<memory_gib> GB"; none only when no type matches |
| ComponentTypeSource.Rejection | internal/provider/data_source_component_type.go:135-157 | platform, then region, then component must be non-empty, each with its own error; the lookup goes ahead exactly when all three are set |
| ComponentTypeSource.Read | internal/provider/data_source_component_type.go:114-194 | a rejection makes no call; otherwise one lookup by region, Standard tier and component; a lookup error or no match leaves the state untouched; the ID is saved exactly when a type matches, and it is the first match's |
| ComponentTypeSource.PlatformNotPassed | internal/provider/data_source_component_type.go:126-159 | the platform is only checked for being non-empty: it never reaches the request or the diagnostics |
| ComponentTypeSource.FakeCatalogSelects | internal/cloudsdk/fake/fake.go:160-191 | against the fake backend's catalog, 2 vCPUs and 8 GiB select "p-2c8g" for every component kind |
| GetKey.Endpoint | scripts/get-key.py:7-11 | RWC_ENDPOINT is used when set and non-empty; unset or empty falls back to the canary endpoint |
| GetKey.ScanAccounts | scripts/get-key.py:36-40 | nothing is found exactly when every account is skipped; a find is the first account named terraform-provider, with its id, all earlier ones skipped; a crash happens at the first account lacking "name", or the first match lacking "id" |
| GetKey.Request | scripts/get-key.py:17-20 | each phase sends the request of its own step (login, listing, account creation, key creation) with the phase's bearer token |
| GetKey.Settle | scripts/get-key.py:46 | after the listing, `len(principal)` decides: a principal without a length crashes, length 0 creates the account, a longer one goes straight to the key |
| GetKey.Accept | scripts/get-key.py:21-25 | a 200 always moves to a later step; the login continues only with a truthy jwt, the listing settles on what the scan found, a created account continues only with a truthy id, and the key step prints only a truthy key and secret, else exits naming the missing one |
| GetKey.Advance | scripts/get-key.py:26-28 | a non-200 reply ends the run with the step's refusal text followed by the reply text and never prints a key; no connection crashes; a 200 is handed to the step's own handling |
| GetKey.Drive | scripts/get-key.py:16-81 | the run extends the calls made so far by at most the remaining steps, and the first new call is the current phase's request |
| GetKey.DriveOrdered | scripts/get-key.py:16-81 | from any phase on, the requests come strictly in step order, never before that phase's step, all with that phase's token |
| GetKey.DriveAccepted | scripts/get-key.py:21-81 | every reply of a run but the last one is a 200 |
| GetKey.DriveLastReply | scripts/get-key.py:69-81 | a key is printed only after a 200 to the last request, and a refused last request ends with an exit |
| GetKey.Session | scripts/get-key.py:7-20 | a run makes one to four requests, and the first is the login to the resolved endpoint with the typed email and password |
| GetKey.Report | scripts/get-key.py:83-85 | a successful run prints three lines: the banner, then the key, then the secret |
| GetKey.SessionOrdered | scripts/get-key.py:16-68 | login comes first, the later requests follow in step order, and all of them carry the same token |
| GetKey.SessionFailsFast | scripts/get-key.py:21-81 | the script stops at the first non-200 reply: every earlier reply was a 200, a printed key follows a 200, and a refused last request ends in exit |
| GetKey.AfterLogin | scripts/get-key.py:21-28 | the listing is requested exactly when the login returned 200 with a truthy jwt, and with that jwt |
| GetKey.AfterListing | scripts/get-key.py:35-60 | after a successful listing, the principal's length picks crash, account creation or the key request; a failed listing ends the run |
| GetKey.AccountCreatedIff | scripts/get-key.py:46-52 | the service account is created if and only if the listing succeeded and left a principal of length 0 |
| GetKey.ExistingAccountReused | scripts/get-key.py:37-40 | an existing terraform-provider account with a non-empty id is reused: the run is login, listing, then the key for that id |
| GetKey.MissingListIsEmpty | scripts/get-key.py:36 | a listing reply without service_accounts reads as an empty list, so nothing is found |
| GetKey.FirstMatchWins | scripts/get-key.py:37-40 | accounts after the first match never change what was found |
| GetKey.IssuedKeyForPrincipal | scripts/get-key.py:62-85 | a printed key was issued by a final key request, for the freshly created account when the listing found nothing, and for the listed principal otherwise |
| ResourceCluster.ParseNsIdKnown | internal/provider/resource_cluster.go:553 | parsing the quoted rendering of a stored NsID gives that UUID back, and a null or unknown NsID never parses |
| ResourceCluster.Populate | internal/provider/resource_cluster.go:390-423 | the converted tenant carries the parsed NsID, the plan's name, version and region, the Standard tier, the fixed cache and etcd volume defaults and all four component pointers |
| ResourceCluster.ToCluster | internal/provider/resource_cluster.go:325-426 | without an etcd meta store the conversion reports "Missing meta store" and leaves the tenant alone; an unparsable NsID reports "Failed to parse nsid"; it succeeds exactly when both are present, and then fills the tenant |
| ResourceCluster.FromCluster | internal/provider/resource_cluster.go:252-323 | the state is written exactly when every component pointer is set (a nil one is dereferenced), with the tenant's name, version and printed NsID and the region untouched |
| ResourceCluster.RoundTrip | internal/provider/resource_cluster.go:252-426 | converting a tenant to the state and back keeps its NsID, name, image tag, both configurations and every component's type and replica count |
| ResourceCluster.CreateRequest | internal/provider/resource_cluster.go:482-514 | the create request exists exactly when every component pointer is set, and carries the tenant's name, the Standard tier and its etcd volume size |
| ResourceCluster.RegionNeverEmpty | internal/provider/resource_cluster.go:439-450 | the rendered region is never empty, so the "Invalid region" branch is dead |
| ResourceCluster.Created | internal/provider/resource_cluster.go:516-539 | a failed create ends with "Unable to create cluster" (or the timeout summary); a nil or component-less answer is a panic; otherwise the state saved is the created cluster's conversion back to the resource model (its name, version, NsID and spec, the plan's region), with no diagnostic and no panic |
| ResourceCluster.Requested | internal/provider/resource_cluster.go:482-516 | a nil component pointer panics while the request is built; otherwise exactly one create call follows, with the request built from the tenant |
| ResourceCluster.CreateConverted | internal/provider/resource_cluster.go:461-539 | the name check is the first call; its error or a taken name stops there with its own error; a free name goes on to the request, the create call and its outcome |
| ResourceCluster.Create | internal/provider/resource_cluster.go:428-461 | the first call checks the name of the tenant converted from the plan, in the quoted region |
| ResourceCluster.CreateStopsOnName | internal/provider/resource_cluster.go:461-478 | a failed name check ends after that one call with "Unable to check cluster existence"; a taken name ends after it with "Cluster name already exists" |
| ResourceCluster.CreateSendsConverted | internal/provider/resource_cluster.go:482-516 | with the name free, a converted tenant lacking a component pointer panics; otherwise the second call creates and awaits the request built from the converted tenant |
| ResourceCluster.CreateSaves | internal/provider/resource_cluster.go:516-539 | the state is saved exactly when the name is free, the converted tenant is complete and the awaited cluster comes back complete; what is saved is that cluster's conversion, with no diagnostic |
| ResourceCluster.CreateWithUnknownNsIdPanics | internal/provider/resource_cluster.go:452-516 | with the NsID still unknown at create time, the ignored conversion failure leaves the tenant empty: the name check is made for "" and building the request panics |
| ResourceCluster.CreateIntended | internal/provider/resource_cluster.go:428-539 | with the conversion diagnostics honoured and no NsID required: a missing meta store stops before any call, a panic only comes from the created answer, and a free name gives exactly the name check and one create call with the plan's name |
| ResourceCluster.Read | internal/provider/resource_cluster.go:542-581 | an unparsable NsID stops before any call; otherwise exactly one lookup by that NsID; the resource is removed, without error, exactly when the lookup fails with ErrClusterNotFound; any other failure is "Unable to read cluster"; an answer with no cluster is a nil dereference; the state is saved exactly when a cluster comes back and converts, and then it is that cluster's conversion, with no diagnostics |
| ResourceCluster.ImmutableViolations | internal/provider/resource_cluster.go:623-654 | no error exactly when the compute file cache flag and size, the etcd volume size, the name and the etcd resource are unchanged; at most five, all errors, the etcd one last |
| ResourceCluster.ConfigSteps | internal/provider/resource_cluster.go:659-717 | the image, risingwave config and etcd config updates are each issued exactly when that field changed, in that order, with the new value |
| ResourceCluster.PointerEqual | internal/provider/resource_cluster.go:583-585 | two component pointers can be compared only when both are set, and they are equal exactly when their type and replica count agree |
| ResourceCluster.ComponentsEqual | internal/provider/resource_cluster.go:720-723 | the four components compare equal exactly when each pair agrees; with all pointers set the comparison cannot panic |
| ResourceCluster.ResourcesDecision | internal/provider/resource_cluster.go:719-743 | the resources update is skipped exactly when the four components are equal; otherwise it sends the new compute, compactor, frontend and meta resources |
| ResourceCluster.Applied | internal/provider/resource_cluster.go:662-702 | one awaited call per update step, in the steps' order, for the cluster's NsID |
| ResourceCluster.Execute | internal/provider/resource_cluster.go:659-717 | the steps run in order and the first failure stops the rest: no error exactly when every step succeeds, and an error comes from the last step run, with that step's own summary |
| ResourceCluster.FinishUpdate | internal/provider/resource_cluster.go:719-761 | an unchanged component set saves the plan without a call; a nil component panics; otherwise one resources call, whose failure leaves the state untouched |
| ResourceCluster.UpdateRead | internal/provider/resource_cluster.go:620-761 | after the read, immutable-field errors stop before any update; otherwise the config updates run until the first failure, and only after all of them succeed comes the resources decision, saving the plan with the cluster's own NsID |
| ResourceCluster.Update | internal/provider/resource_cluster.go:587-618 | an unparsable NsID stops before any call; otherwise the first call reads the cluster by NsID, and a found cluster goes on to the update proper |
| ResourceCluster.UpdatePlanInOrder | internal/provider/resource_cluster.go:659-758 | image, risingwave config, etcd config and resources updates are issued in that fixed order |
| ResourceCluster.Delete | internal/provider/resource_cluster.go:764-798 | an unparsable NsID stops before any call; otherwise one awaited delete by NsID; the run is clean exactly when the delete succeeds |
| ResourceCluster.ImportState | internal/provider/resource_cluster.go:800-811 | an identifier that is not a UUID is rejected with a message naming the UUID uuid.Parse returned alongside its error, which is the nil UUID for a bad length or prefix; a UUID is stored as the nsid attribute in canonical form |
| ResourceCluster.ImportNamesPartialUuid | internal/provider/resource_cluster.go:801-806 | "12345678-zzzz-0000-0000-000000000000" is rejected with the message naming 12345678-0000-0000-0000-000000000000, the bytes read before the bad pair |
| ResourceCluster.ImportThenRead | internal/provider/resource_cluster.go:542-562 | the NsID an import stores is read back by a lookup of the same UUID |
| LegacyCluster.ToUint64 | internal/provider/cluster.go:376 | Go's uint64 conversion of an int64: non-negative values are kept, negative ones wrap by 2^64 |
| LegacyCluster.ToInt64 | internal/provider/cluster.go:254 | Go's int64 conversion of a uint64: values from 2^63 up wrap to negatives |
| LegacyCluster.Int64RoundTrip | internal/provider/cluster.go:254-376 | the stored int64 ID survives the conversion to uint64 and back unchanged |
| LegacyCluster.ToCluster | internal/provider/cluster.go:324-411 | a missing etcd meta store gives "Missing meta store" and leaves the tenant alone; otherwise it fills the tenant, with the meta component always zero (meta.resource went into the etcd slot), the etcd configuration never read from the plan, and volume size 20 |
| LegacyCluster.FromCluster | internal/provider/cluster.go:251-322 | the state is written exactly when every component pointer is set, with the ID as int64, the name, and the risingwave configuration written into etcd_config |
| LegacyCluster.RoundTrip | internal/provider/cluster.go:251-411 | a tenant through the state and back keeps ID, name, image tag, risingwave config, compute, compactor, frontend and etcd, while meta comes back zero and the etcd configuration is not restored |
| LegacyCluster.CreateRequest | internal/provider/cluster.go:433-465 | the request exists exactly when every component pointer is set, with the plan's name and version, the Standard tier and the tenant's etcd configuration |
| LegacyCluster.Created | internal/provider/cluster.go:476-499 | a failed create ends with "Unable to create cluster" (or the timeout summary); the state is saved exactly when the answer has every component; the state saved is the created cluster's conversion back to the resource model, with no diagnostic and no panic |
| LegacyCluster.Create | internal/provider/cluster.go:413-500 | the ignored "Missing meta store" leaves the components nil, so building the request panics before any call; otherwise the region client comes first, its failure stops there, and the request sent always carries an empty etcd configuration |
| LegacyCluster.Read | internal/provider/cluster.go:502-540 | the region client, then one lookup by name; a lookup error is "Unable to read cluster" and never removes the resource; an answer with no cluster is a nil dereference; the state is saved exactly when a cluster comes back and converts, and then it is that cluster's conversion, with no diagnostics |
| LegacyCluster.ImmutableViolations | internal/provider/cluster.go:575-604 | as written, no error exactly when the cache flag and size, the volume size and the name are unchanged and the etcd resource DID change; "Etcd resource cannot be changed" is raised, last, exactly when it did not |
| LegacyCluster.ConfigSteps | internal/provider/cluster.go:610-643 | the image update is issued when the tag changed and the risingwave config update when it changed, but the etcd config update exactly when the configuration is unchanged |
| LegacyCluster.Execute | internal/provider/cluster.go:610-643 | the updates run in order and the first failure stops the rest with that update's own summary; no error exactly when all succeed |
| LegacyCluster.ResourcesCall | internal/provider/cluster.go:646-669 | no resources update exactly when the four components are deeply equal; a nil component in the plan panics; the update goes to the plan's cluster name |
| LegacyCluster.UpdateRead | internal/provider/cluster.go:575-679 | immutable-field errors stop before any update; a failed config update stops the rest; all succeeding, the resources update follows only when components differ, and the plan is saved unchanged |
| LegacyCluster.UpdateReadExtends | internal/provider/cluster.go:556-679 | the calls made before the cluster was read stay, unchanged, at the head of the calls Update makes |
| LegacyCluster.UpdateWithClient | internal/provider/cluster.go:565-572 | the cluster is read by the uint64 conversion of the stored ID; a read error is "Unable to read cluster" and nothing else is called |
| LegacyCluster.Update | internal/provider/cluster.go:542-563 | a region client failure stops after that one call; otherwise the update reads the cluster through that client |
| LegacyCluster.Delete | internal/provider/cluster.go:682-715 | the region client, then one awaited delete by name; the run is clean exactly when both succeed, and a failed delete is reported with its summary |
| LegacyCluster.ImportState | internal/provider/cluster.go:717-732 | no call is made; an identifier that does not split on '.' into three non-empty parts is rejected, quoting it; otherwise platform, region and name are set in that order |
| LegacyCluster.ImportIdentifier | internal/provider/cluster.go:718-731 | non-empty, dot-free platform, region and name are imported as exactly themselves |
| LegacyCluster.DottedSplit | internal/provider/cluster.go:718 | an identifier whose name part contains a dot splits into at least four parts |
| LegacyCluster.DottedNameNotImportable | internal/provider/cluster.go:718-728 | a cluster whose name contains a dot cannot be imported, whatever its platform and region |
| ResourceClusterUser.ParseIdentifier | internal/provider/resource_cluster_user.go:159-173 | an ID that does not split on '.' into exactly two parts, or whose first part is not a UUID, is rejected with its own message; an accepted username never contains a dot |
| ResourceClusterUser.ParseFormatted | internal/provider/resource_cluster_user.go:159-182 | the "<NsID>.<username>" ID the resource writes parses back to the same NsID and username exactly when the username has no dot; otherwise it never parses |
| ResourceClusterUser.CreateFlag | internal/provider/resource_cluster_user.go:117-127 | create_db and super_user are true only when known and true: an unknown flag defaults to false |
| ResourceClusterUser.ToDataModel | internal/provider/resource_cluster_user.go:181-187 | the password is never touched; username, cluster ID and both flags come from the user; the written ID parses back to the user exactly when the username has no dot |
| ResourceClusterUser.ToDataModelIdempotent | internal/provider/resource_cluster_user.go:181-187 | converting again from the same user changes nothing |
| ResourceClusterUser.Create | internal/provider/resource_cluster_user.go:105-157 | an empty username, then an empty password (reported with the username text, as written), then an unparsable cluster ID stop before any call; otherwise exactly one create call with the defaulted flags; the state is saved exactly when a user comes back, keeping the planned password, and a nil user is dereferenced |
| ResourceClusterUser.Read | internal/provider/resource_cluster_user.go:189-216 | an unknown or null ID and an unparsable ID stop before any call; otherwise one lookup by the parsed NsID and username; the state is saved exactly when the user is found, keeping the password |
| ResourceClusterUser.ReadAfterCreate | internal/provider/resource_cluster_user.go:145-213 | the state Create saves is read back by a lookup of the same NsID and username, unless the username has a dot, in which case Read rejects it before any call |
| ResourceClusterUser.ImmutableViolation | internal/provider/resource_cluster_user.go:240-262 | a change is refused exactly when username, create_db or super_user differs from the state |
| ResourceClusterUser.UpdateAccepted | internal/provider/resource_cluster_user.go:264-281 | exactly one password update, for the ID's NsID and username, exactly when the password changed, and its failure stops the update; a saved state carries the new password and needs the re-read user |
| ResourceClusterUser.Update | internal/provider/resource_cluster_user.go:218-282 | an unparsable stored ID stops first; a change to an immutable field is refused with no call and no write; otherwise the password step and re-read follow |
| ResourceClusterUser.Delete | internal/provider/resource_cluster_user.go:284-305 | a call is made exactly when the ID is known and parses, and then it is the one delete for that NsID and username; the run is clean exactly when that delete succeeds; the state is never written |
| ResourceClusterUser.ImportState | internal/provider/resource_cluster_user.go:307-319 | the ID must parse before the one lookup; the id attribute is set, to the given ID, exactly when the user it names is found |
| ResourceClusterUser.ImportFormatted | internal/provider/resource_cluster_user.go:307-319 | importing the ID the resource writes for a dot-free username looks up exactly that user, and stores that ID once found |
| ResourcePrivateLink.ToDataModel | internal/provider/resource_privatelink.go:130-136 | the link's ID, the cluster NsID and the connection name are copied, a missing target or endpoint becomes "", and a nil link is dereferenced |
| ResourcePrivateLink.CreateRejection | internal/provider/resource_privatelink.go:100-114 | an unparsable cluster ID, then an empty connection name, then an empty target are refused in that order; the plan passes exactly when none applies |
| ResourcePrivateLink.Create | internal/provider/resource_privatelink.go:92-128 | a refused plan makes no call; otherwise exactly one awaited create with the connection name and target; a failure is "Create failed"; the state is saved exactly when a link comes back, converted from it |
| ResourcePrivateLink.Read | internal/provider/resource_privatelink.go:138-164 | an unknown or null ID, then a non-UUID ID, stop before any call; otherwise one lookup by that ID; the state is saved exactly when the lookup returns a link |
| ResourcePrivateLink.ReadAfterCreate | internal/provider/resource_privatelink.go:116-156 | the state Create saves is read back by a lookup of the created link's ID |
| ResourcePrivateLink.ImmutableViolation | internal/provider/resource_privatelink.go:183-199 | no error exactly when connection name, endpoint, target and cluster ID are unchanged; a changed connection name is the error reported first |
| ResourcePrivateLink.Update | internal/provider/resource_privatelink.go:166-205 | Update never calls the client: it reports the first immutable change and writes nothing, or saves the plan with the stored ID |
| ResourcePrivateLink.UpdateToStateIsIdentity | internal/provider/resource_privatelink.go:166-205 | updating to the stored attributes is accepted and stores them unchanged |
| ResourcePrivateLink.Delete | internal/provider/resource_privatelink.go:207-246 | a known ID, a parsable cluster ID and a parsable link ID are required, in that order, before the one awaited delete; a timeout and any other failure get different summaries; the run is clean exactly when the delete succeeds |
| ResourcePrivateLink.ImportState | internal/provider/resource_privatelink.go:248-262 | a non-UUID ID is refused before any call; otherwise one lookup, and the id attribute is set to the given ID exactly when the lookup succeeds |
| ResourcePrivateLink.ImportThenRead | internal/provider/resource_privatelink.go:138-262 | a read of an imported ID makes the same lookup the import made |
| InternalCloudSdk.ApiKeyPair | internal/cloudsdk/cloudsdk.go:80 | the X-API-KEY value is the key, one colon, then the secret, and both parts can be read back from it |
| InternalCloudSdk.ApiKeyPairInjective | internal/cloudsdk/cloudsdk.go:80 | for keys without a colon, two credential pairs give the same header value exactly when they are equal |
| InternalCloudSdk.RegionMap | internal/cloudsdk/cloudsdk.go:105-112 | the region clients are keyed by exactly the region names listed |
| InternalCloudSdk.RegionMapLastWins | internal/cloudsdk/cloudsdk.go:105-112 | when a region name repeats, the later entry's URL is the one kept |
| InternalCloudSdk.NewCloudClient | internal/cloudsdk/cloudsdk.go:79-120 | a client is built exactly when the region listing answers 200 with a non-empty array; it keeps the endpoint, the key pair and a region client per listed name; a nil or empty array is refused with its own message |
| InternalCloudSdk.GetRegionClient | internal/cloudsdk/cloudsdk.go:135-141 | a region is served exactly when it was listed, by the client built for it; otherwise the error names the region |
| InternalCloudSdk.GetClusterInfo | internal/cloudsdk/cloudsdk.go:143-152 | a 404 is the cluster-not-found sentinel wrapped with the namespace ID; any other status yields the payload unchecked; a transport error is wrapped |
| InternalCloudSdk.ResolveCluster | internal/cloudsdk/cloudsdk.go:154-164 | a namespace resolves exactly when the account service knows it and its region was listed, to that tenant and region client; a nil tenant is dereferenced |
| InternalCloudSdk.ByNsID | internal/cloudsdk/cloudsdk.go:166-268 | every by-namespace operation fails or panics as the resolution does, and otherwise returns what the region call returns |
| InternalCloudSdk.UnknownNamespaceStopsEarly | internal/cloudsdk/cloudsdk.go:143-164 | for an unknown namespace every by-namespace operation gives the same cluster-not-found failure, whatever the region call would have done |
| InternalCloudSdk.Ping | internal/cloudsdk/cloudsdk.go:184-196 | the ping succeeds exactly on 200; 403 is the invalid-credential sentinel and no other failure is |
| InternalCloudSdk.FirstUser | internal/cloudsdk/cloudsdk.go:282-286 | the index of the first user with the name, and none exactly when no user has it |
| InternalCloudSdk.GetClusterUser | internal/cloudsdk/cloudsdk.go:270-288 | the user is returned exactly when the listing succeeds and names them, as the first such entry; a missing cluster is re-wrapped with the namespace ID; a missing user gets its own message |
| InternalCloudSdk.CreateCluserUser | internal/cloudsdk/cloudsdk.go:290-309 | the region's create result passes through unchanged on success, and a failure is cluster-not-found exactly when the region's failure is |
| InternalCloudSdk.NextRequest | internal/cloudsdk/cloudsdk.go:347-352 | the next page keeps the returned limit and asks for the returned offset plus one, in 64-bit arithmetic |
| InternalCloudSdk.ListingError | internal/cloudsdk/cloudsdk.go:341-346 | a page request fails exactly when it gets no 200 answer |
| InternalCloudSdk.ListPrivateLinks | internal/cloudsdk/cloudsdk.go:333-354 | the first request is offset 0, limit 10; each later request follows from the page before it; the loop stops at the first failed request, the first 200 with no body, or the first page that covers the size, and then holds every page's links in order |
| InternalCloudSdk.ListingOutcome | internal/cloudsdk/cloudsdk.go:333-354 | a finished listing returns its links exactly when every page was answered, and fails exactly when a request failed |
| InternalCloudSdk.FirstLink | internal/cloudsdk/cloudsdk.go:355-362 | the index of the first listed link with the ID, and none exactly when no listed link has it |
| InternalCloudSdk.GetPrivateLink | internal/cloudsdk/cloudsdk.go:332-383 | an unlisted ID is the private-link-not-found sentinel with the ID; an unknown region is refused; success needs the cluster and the link and pairs the link with the cluster's namespace ID |
| InternalRegion.ExpectWithBody | internal/cloudsdk/region.go:194 | the status check passes exactly when the status is the expected one |
| InternalRegion.ExpectWithBodyIsPlain | internal/cloudsdk/apigen/helpers.go:14-23 | an unexpected status is a plain error that matches no sentinel |
| InternalRegion.ClassifyTenant | internal/cloudsdk/region.go:156-186 | a tenant lookup succeeds exactly on 200, with the payload; 404 is cluster-not-found; any other failure matches no sentinel |
| InternalRegion.GetClusterByName | internal/cloudsdk/region.go:156-170 | the lookup by name succeeds exactly on 200, and a 404 is cluster-not-found naming the cluster |
| InternalRegion.GetClusterByID | internal/cloudsdk/region.go:172-186 | the lookup by ID succeeds exactly on 200, and a 404 is cluster-not-found with the ID in decimal |
| InternalRegion.IsTenantNameExist | internal/cloudsdk/region.go:97-106 | true exactly when the lookup by name succeeds, false exactly when it fails with cluster-not-found, and any other failure is wrapped |
| InternalRegion.IsTenantNameExistByStatus | internal/cloudsdk/region.go:97-106 | 404 means the name is free, 200 means it is taken, and any other status is an error |
| InternalRegion.StatusTick | internal/cloudsdk/region.go:108-137 | a status poll stops successfully exactly when the cluster is in the target status, fails exactly when the lookup fails, and dereferences a nil cluster |
| InternalRegion.HealthTick | internal/cloudsdk/region.go:140-153 | a health poll stops successfully exactly when the cluster has the target health status |
| InternalRegion.WaitStatusFailure | internal/cloudsdk/region.go:117-119 | a failed wait wraps the poll's error, so it matches exactly the sentinels the poll's error matches |
| InternalRegion.CreateClusterAwait | internal/cloudsdk/region.go:188-211 | creation succeeds exactly when the request is accepted, both waits end and the re-read succeeds, in that order, returning the re-read tenant; a rejected request stops after the send |
| InternalRegion.DeleteClusterAwait | internal/cloudsdk/region.go:213-238 | a 404 is a success without waiting; the wait happens exactly on 202; deletion succeeds exactly on 404, or on 202 with the wait ending |
| InternalRegion.DeleteTick | internal/cloudsdk/region.go:228-237 | the deletion poll stops successfully exactly when the lookup answers 404 |
| InternalRegion.UpdateAwait | internal/cloudsdk/region.go:240-356 | image, resource, RisingWave and etcd updates each succeed exactly when the cluster is found, the request is accepted and the wait ends; a failed lookup is wrapped and a nil cluster is dereferenced |
| InternalRegion.GetTiers | internal/cloudsdk/region.go:277-287 | the tiers are returned exactly on a 200 with a body; a 200 without one is dereferenced |
| InternalRegion.FirstTier | internal/cloudsdk/region.go:294-305 | the index of the first tier with the ID, and none exactly when no tier has it |
| InternalRegion.ComponentList | internal/cloudsdk/region.go:306-321 | each of the six component names selects its node list, and any other name selects nothing |
| InternalRegion.GetAvailableComponentTypes | internal/cloudsdk/region.go:289-322 | a missing tier and an unknown component are refused with their own messages; otherwise the first matching tier's list for the component is returned |
| InternalRegion.FirstTierShadows | internal/cloudsdk/region.go:294-305 | when a tier ID repeats, a later duplicate is never the one chosen |
| InternalRegion.GetClusterUsers | internal/cloudsdk/region.go:358-376 | the users are returned exactly on a 200 with a body, a nil list becoming empty; a 404 is cluster-not-found |
| InternalRegion.CreateCluserUser | internal/cloudsdk/region.go:378-390 | creation succeeds exactly on 200, with the payload; a 404 is cluster-not-found |
| InternalRegion.UpdateClusterUserPassword | internal/cloudsdk/region.go:392-402 | the update succeeds exactly on 200, and a failure status matches no sentinel |
| InternalRegion.DeleteClusterUser | internal/cloudsdk/region.go:404-416 | deletion succeeds exactly on 200 or 404 |
| InternalRegion.GetPrivateLink | internal/cloudsdk/region.go:418-430 | the lookup succeeds exactly on 200; 404 is exactly the private-link-not-found sentinel and no other failure matches it |
| InternalRegion.SendLinkRequest | internal/cloudsdk/region.go:432-488 | a link create or delete request is sent successfully exactly when it is answered 202 |
| InternalRegion.CreateLinkTick | internal/cloudsdk/region.go:441-456 | the creation poll keeps waiting on not-found, fails on any other error, stops exactly when the link is Created, and remembers the last link seen |
| InternalRegion.CreateLinkResult | internal/cloudsdk/region.go:458-464 | a finished wait returns the last link seen; a failed one wraps the wait's error and names the last status, or "<nil>" when none was seen |
| InternalRegion.DeleteLinkTick | internal/cloudsdk/region.go:478-487 | the deletion poll stops exactly on not-found, keeps waiting while the link is found, and fails on any other error |
| InternalRegion.DeletePrivateLinkAwait | internal/cloudsdk/region.go:467-488 | a 404 is a success without waiting; the wait happens exactly on 202; deletion succeeds exactly on 404, or on 202 with the wait ending |
| InternalRegion.LinkTicksMirror | internal/cloudsdk/region.go:445-486 | on answers that carry a link, the deletion poll is done exactly when the creation poll would keep waiting because of an error, that is on not-found |
| InternalApigen.ExpectStatusCodeWithMessage | internal/cloudsdk/apigen/helpers.go:14-23 | no error exactly when the status is the expected one; otherwise a plain error naming both codes, followed by the first message when one is given |
| InternalApigen.OnlyFirstMessage | internal/cloudsdk/apigen/helpers.go:14-23 | messages after the first have no effect |
| InternalApigen.ExpectStatusCodeWithError | internal/cloudsdk/apigen/helpers.go:25-30 | no error exactly when the status matches; otherwise the given error wrapped with both codes and its own text |
| InternalApigen.StatusLineIgnored | internal/cloudsdk/apigen/helpers.go:14-30 | both checks depend on the status code alone, never on the status line |
| InternalApigen.WithErrorKeepsSentinel | internal/cloudsdk/apigen/helpers.go:25-30 | the wrapped mismatch error matches exactly the sentinels the given error matches |
| PkgApigen.ExpectStatusCodeWithMessage | pkg/cloudsdk/apigen/helpers.go:10-15 | no error exactly when the status matches; otherwise a plain error naming both codes and ending in "message: " with nothing after it |
| PkgApigen.ExpectStatusCodeWithError | pkg/cloudsdk/apigen/helpers.go:17-22 | no error exactly when the status matches; otherwise the given error wrapped with both codes and its text |
| PkgApigen.SingleAcceptedCode | pkg/cloudsdk/apigen/helpers.go:10-15 | a response passes the check for at most one expected code |
| PkgRegion.Expect | pkg/cloudsdk/region.go:119 | the status check passes exactly when the status is the expected one, and a mismatch is a plain error |
| PkgRegion.ExpectWithBody | pkg/cloudsdk/region.go:135-137 | a mismatch is the plain mismatch error wrapped with "message" and the body |
| PkgRegion.GetClusterByName | pkg/cloudsdk/region.go:109-123 | the lookup by name succeeds exactly on 200, with the payload; 404 is the bare cluster-not-found sentinel; any other status is a plain error |
| PkgRegion.GetClusterByID | pkg/cloudsdk/region.go:125-139 | the lookup by ID succeeds exactly on 200; 404 is the bare sentinel; any other status is the mismatch wrapped with the body |
| PkgRegion.LookupsAgreeButOnMismatch | pkg/cloudsdk/region.go:109-139 | the two lookups agree on every answer except an unexpected status, where only the ID lookup adds the body |
| PkgRegion.IsTenantNameExist | pkg/cloudsdk/region.go:66-75 | true exactly when the name lookup succeeds, false exactly when it returns the bare sentinel (compared with ==), and any other failure is wrapped |
| PkgRegion.IsTenantNameExistByStatus | pkg/cloudsdk/region.go:66-75 | the name is free exactly on 404, taken exactly on 200, and an error otherwise |
| PkgRegion.WrappedSentinelIsNotIdentical | pkg/cloudsdk/region.go:69 | a wrapped cluster-not-found still matches the sentinel by errors.Is but is not equal to it, which is why the comparison relies on the bare sentinel |
| PkgRegion.WaitByIDTick | pkg/cloudsdk/region.go:77-90 | a poll by ID stops successfully exactly when the cluster has the target status; a failed lookup is wrapped; a 200 without a body is dereferenced |
| PkgRegion.WaitByNameTick | pkg/cloudsdk/region.go:93-106 | a poll by name stops successfully exactly when the cluster has the target status; a failed lookup is wrapped |
| PkgRegion.WaitTicksAgree | pkg/cloudsdk/region.go:77-106 | the two polls decide alike whenever they stop or panic |
| PkgRegion.CreateClusterAwait | pkg/cloudsdk/region.go:141-161 | creation succeeds exactly when the request is accepted, the status wait ends and the name lookup succeeds; there is no health wait |
| PkgRegion.DeleteClusterAwait | pkg/cloudsdk/region.go:163-188 | a 404 succeeds without waiting; the wait happens exactly on 202 and then decides the result |
| PkgRegion.UpdateAwait | pkg/cloudsdk/region.go:190-305 | each update succeeds exactly when the cluster is found by ID, the request is accepted and the wait ends; a failed lookup and a failed send are wrapped with their own context |
| PkgRegion.GetTiers | pkg/cloudsdk/region.go:227-237 | the tiers are returned exactly on a 200 with a body; another status is the mismatch with the body |
| PkgRegion.ComponentList | pkg/cloudsdk/region.go:257-269 | five component names select a node list, etcd selecting the tier's own etcd list; any other name selects nothing |
| PkgRegion.ComponentListAgainstInternal | pkg/cloudsdk/region.go:257-269 | the public client agrees with the provider's client on compute, compactor, frontend and meta, differs on etcd unless the two etcd lists agree, and knows no postgresql |
| PkgRegion.GetAvailableComponentTypes | pkg/cloudsdk/region.go:239-270 | a missing tier and an unknown component are refused with their own messages; otherwise the first matching tier's list is returned |
| PkgAccount.File | pkg/cloudsdk/account.go:67-70 | filing a region adds exactly its platform and name and keeps every other entry |
| PkgAccount.NestedRegionMap | pkg/cloudsdk/account.go:65-71 | the nested map holds exactly the listed platform and region pairs, each under its own platform and name |
| PkgAccount.NestedRegionMapLastWins | pkg/cloudsdk/account.go:65-71 | when a pair repeats, the last listing of it is the one kept |
| PkgAccount.NewAccountServiceClient | pkg/cloudsdk/account.go:39-79 | a client is built exactly when the listing answers 200 with a non-empty array, keyed by exactly the listed pairs; each failure has its own error |
| PkgAccount.Ping | pkg/cloudsdk/account.go:81-90 | the ping succeeds exactly on 200, fails with the invalid-credential sentinel exactly on 403, and wraps a transport error |
| PkgAccount.GetRegionServiceClient | pkg/cloudsdk/account.go:92-104 | the region client uses the listed region's URL and the same key pair; an unlisted pair yields a client with an empty server and no error |
| PkgAccount.NewThenRegionClient | pkg/cloudsdk/account.go:39-104 | after construction, every listed pair reaches the URL of its last listing and an unlisted pair reaches an empty server |
| PkgClient.NewCloudClient | pkg/cloudsdk/client.go:76-85 | the client keeps the endpoint and key and holds exactly one header, "Authentication", whose one value is the bearer token; no other spelling of a key reads any value |
| PkgClient.AuthHeaderIsCanonical | pkg/cloudsdk/client.go:78 | "Authentication" is already in canonical form, so the header is stored under the name the code writes |
| PkgClient.Ping | pkg/cloudsdk/client.go:87-93 | one GET of /auth/ping with the client's headers; success exactly on 200; a failure names the control plane |
| PkgClient.CreateTick | pkg/cloudsdk/client.go:138-146 | the creation poll stops on 200, waits on 404, and fails on any other status with the code |
| PkgClient.DeleteTick | pkg/cloudsdk/client.go:174-182 | the deletion poll stops on 404, waits on 200, and fails on any other status with the code |
| PkgClient.TicksMirror | pkg/cloudsdk/client.go:138-182 | the two polls accept the same statuses with opposite decisions and fail alike on the rest |
| PkgClient.CreatePollSucceeds | pkg/cloudsdk/client.go:133-149 | the creation wait ends well exactly when some answer is 200 and every earlier one is 404 |
| PkgClient.CreateCluster | pkg/cloudsdk/client.go:120-154 | one POST of /tenants with the marshalled payload; polling by tenant name happens exactly on 202; success needs the poll to end well; each failure has its own wrapping |
| PkgClient.DeleteCluster | pkg/cloudsdk/client.go:156-191 | one DELETE of /tenant by name; polling with the same query happens exactly on 202; success needs the poll to end well |
| PkgClient.Stub | pkg/cloudsdk/client.go:193-204 | the image, resource and component-type operations always fail with "Unimplemented" |
| Httpx.Add | pkg/httpx/httpx.go:50 | a value added under any spelling of a key is appended to the values of the key's canonical form (textproto.CanonicalMIMEHeaderKey); every key with another canonical form reads the same values, and the key set gains exactly the canonical key |
| Httpx.CanonicalKey | pkg/httpx/httpx.go:50 | the canonical form of a key has its length and, up to letter case, its characters; a key with a character outside the header token characters is kept unchanged |
| Httpx.CanonicalKeyIdempotent | pkg/httpx/httpx.go:50 | canonicalising a canonical key changes nothing |
| Httpx.CanonicalKeyIgnoresCase | pkg/httpx/httpx.go:50 | two token keys that differ only in letter case have the same canonical form, so they name the same header |
| Httpx.AddCanonicalises | pkg/httpx/httpx.go:50 | adding under "x-api-key" to empty headers files the value under "X-Api-Key" |
| Httpx.AddAll | pkg/httpx/httpx.go:77-79 | adding a key's values one by one appends them all, in order, to the canonical key's entry, and adds nothing for an empty list |
| Httpx.Del | pkg/httpx/httpx.go:56 | deleting under any spelling of a key removes the canonical key and all its values; every key with another canonical form reads the same values |
| Httpx.NewHTTPClient | pkg/httpx/httpx.go:29-45 | the base loses exactly its trailing slashes and nothing else, a base without one is kept, and the headers start empty |
| Httpx.NewHTTPClientIdempotent | pkg/httpx/httpx.go:29-45 | building a client from an already trimmed base changes nothing |
| Httpx.SetHeader | pkg/httpx/httpx.go:47-51 | the value is appended to the values of the key's canonical form; the base, and every key with another canonical form, are unchanged, and the key set gains exactly the canonical key |
| Httpx.UnsetHeader | pkg/httpx/httpx.go:53-57 | the key, under any spelling, has no values afterwards; the base and every key with another canonical form are unchanged, and exactly the canonical key leaves the key set |
| Httpx.CopyHeader | pkg/httpx/httpx.go:75-80 | re-adding every value of canonical headers gives the same keys with the same values in the same order |
| Httpx.StartRequest | pkg/httpx/httpx.go:74-89 | a request starts with the given verb and path, headers equal to the client's, an empty query, no errors and no body |
| Httpx.Get | pkg/httpx/httpx.go:91-93 | a GET request on the path, carrying the client's headers |
| Httpx.Post | pkg/httpx/httpx.go:95-97 | a POST request on the path, carrying the client's headers |
| Httpx.Put | pkg/httpx/httpx.go:99-101 | a PUT request on the path, carrying the client's headers |
| Httpx.Delete | pkg/httpx/httpx.go:103-105 | a DELETE request on the path, carrying the client's headers |
| Httpx.HandleErr | pkg/httpx/httpx.go:107-112 | a nil error changes nothing; any other error is appended to the request's errors and nothing else changes |
| Httpx.WithQuery | pkg/httpx/httpx.go:114-117 | the key maps to the value, every other query entry is kept, and nothing else changes |
| Httpx.WithQueryLastWins | pkg/httpx/httpx.go:114-117 | setting the same query key twice leaves only the second value |
| Httpx.WithJSON | pkg/httpx/httpx.go:119-126 | a marshalling failure is recorded as an error with no body; otherwise the marshalled bytes become the body |
| Httpx.WithHeader | pkg/httpx/httpx.go:128-131 | the value is appended to the request's own values for the key's canonical form, not the client's; every key with another canonical form is unchanged |
| Httpx.Do | pkg/httpx/httpx.go:160-168 | a request with recorded errors is refused with all of them listed, each followed by a semicolon; otherwise it is sent as built |
| Httpx.HandledErrorStopsDo | pkg/httpx/httpx.go:107-168 | once an error is recorded the request is never sent, and that error is the last one listed |
| Httpx.Poll | pkg/httpx/httpx.go:133-158 | polling stops at the first send error, callback error or true answer, and ends with the deadline error exactly when every answer says keep waiting |
| Httpx.FormatCodes | pkg/httpx/httpx.go:218 | the expected codes are printed in square brackets |
| Httpx.ExpectStatusWithMessage | pkg/httpx/httpx.go:211-221 | no error exactly when the status is among the codes; otherwise the status and codes, after the message when there is one |
| Httpx.ExpectStatus | pkg/httpx/httpx.go:223-225 | no error exactly when the status is among the codes, so an empty list always fails |
| Httpx.MessageLeadsStatusText | pkg/httpx/httpx.go:217-220 | a non-empty message is the start of the error text |
| RwCloud.ToBase32 | internal/utils/rwcloud/rwcloud.go:16-40 | the bit-buffer loop produces exactly the 26 base-32 digits, most significant first, of the 130-bit number formed by the bits 10 followed by the UUID's 128 bits |
| RwCloud.EmitGroups | internal/utils/rwcloud/rwcloud.go:30-36 | the inner loop emits whole 5-bit groups until fewer than 5 bits are buffered, and the digits emitted so far are those of the bits consumed |
| RwCloud.Base32Shape | internal/utils/rwcloud/rwcloud.go:19-24 | the result has 26 characters, all from the alphabet, and starts with a letter between g and n because of the leading 1 bit |
| RwCloud.Base32Injective | internal/utils/rwcloud/rwcloud.go:16-40 | two UUIDs have the same base-32 text exactly when they are equal |
| RwCloud.BigEndianInjective | internal/utils/rwcloud/rwcloud.go:26-29 | equal-length byte strings with the same big-endian value are equal |
| RwCloud.DigitsInjective | internal/utils/rwcloud/rwcloud.go:30-36 | numbers below 32^k with the same k base-32 digits are equal |
| RwCloud.ClusterIdText | internal/utils/rwcloud/rwcloud.go:13 | the text encoded is "rwc-", the 26 base-32 characters, "-", then the name: 31 bytes followed by the name |
| RwCloud.BuildEncodedClusterID | internal/utils/rwcloud/rwcloud.go:12-14 | the ID is padded standard base64 of that text: it decodes back to it and has the padded length |
| RwCloud.Base32Ascii | internal/utils/rwcloud/rwcloud.go:13 | the prefix up to the second dash is ASCII, so its UTF-8 bytes are its characters |
| RwCloud.ClusterIdInjective | internal/utils/rwcloud/rwcloud.go:12-14 | two namespace and name pairs give the same encoded text exactly when both parts are equal |
| Base64.Encode | internal/utils/rwcloud/rwcloud.go:13 | standard padded base64: four characters for every three bytes or part of three |
| Base64.DecodeEncode | internal/utils/rwcloud/rwcloud.go:13 | decoding an encoding gives back the bytes |
| Base64.EncodeInjective | internal/utils/rwcloud/rwcloud.go:13 | different byte strings have different encodings |
| Defaults.String | internal/utils/defaults/defaults.go:3-8 | a non-empty value is kept, an empty one is replaced by the default, and the result is empty only when both are |
| Defaults.StringIdempotent | internal/utils/defaults/defaults.go:3-8 | applying the same default twice changes nothing |
| Defaults.UnwrapOr | internal/utils/defaults/defaults.go:10-15 | a nil pointer gives the default and any other gives the value it points to |
| Utils.IfElse | internal/utils/utils.go:3-8 | the first value when the condition holds, the second otherwise |
| Utils.IfElseSame | internal/utils/utils.go:3-8 | choosing between equal values gives that value |
| Utils.IfElseSwap | internal/utils/utils.go:3-8 | negating the condition and swapping the values gives the same choice |
| GoErrors.Root | internal/provider/resource_cluster.go:518 | the innermost cause of a chain of wraps, itself never a wrap |
| GoErrors.Is | internal/provider/resource_cluster.go:518 | errors.Is holds exactly when the innermost cause is the sentinel |
| GoErrors.WrapKeepsIs | internal/cloudsdk/cloudsdk.go:277-278 | wrapping an error with context keeps every sentinel it matches and adds none |
| Tf.Render | internal/provider/resource_cluster.go:382-386 | the String() text of a known value is the value in double quotes, two characters longer |
| Tf.ParseRendered | internal/provider/resource_cluster.go:382 | uuid.Parse of the quoted text of a known canonical UUID gives that UUID back, and the text of a null or unknown value never parses |
| Uuid.Parse | internal/provider/resource_cluster_user.go:166 | a UUID comes back exactly when uuid.Parse reports no error, and it is the parsed value; the length switch counts UTF-8 bytes, so any byte length other than 32, 36, 38 and 45 is refused |
| Uuid.ParseResult | internal/provider/resource_cluster.go:801 | uuid.Parse's pair of results: a byte length outside the four forms is InvalidLength naming that byte length |
| Uuid.ParseBytes | internal/provider/resource_cluster.go:801 | the length switch of uuid.Parse: InvalidLength exactly for the byte lengths outside 32, 36, 38 and 45; every error other than a bad digit or dash comes with the nil UUID |
| Uuid.ReadPairs | internal/provider/resource_cluster.go:801 | the pair loop of uuid.Parse: no error exactly when all sixteen pairs are hex; each byte before the first bad pair is its pair's value, bytes after it are zero, and the bad pair's own byte is kept only in the 32-digit form |
| Uuid.PartialParse | internal/provider/resource_cluster.go:801-806 | "12345678-zzzz-0000-0000-000000000000" fails with InvalidFormat and returns the four bytes read before the bad pair, then zeros |
| Bytes.Utf8 | internal/provider/resource_cluster.go:801 | the UTF-8 encoding is at least as long as the text, and exactly as long when every character is ASCII |
| Uuid.ParseToString | internal/provider/resource_cluster_user.go:166-183 | parsing a UUID's canonical text gives that UUID back |
| Uuid.ParseEnclosed | internal/provider/resource_cluster.go:382 | the canonical text between any two ASCII delimiter characters (the quotes of a rendered value, say) parses to the same UUID |
| Uuid.NonAsciiDelimiterRefused | internal/provider/resource_cluster.go:382 | with a two-byte opening character the 38-character text is 39 bytes long and is refused for its length |
| Uuid.ToStringInjective | internal/provider/resource_cluster_user.go:183 | two UUIDs have the same canonical text exactly when they are equal |
| Text.DecimalRoundTrip | internal/provider/data_source_component_type.go:170 | the decimal text of an integer parses back to it |
| Text.DecimalInjective | internal/provider/data_source_component_type.go:170 | two integers have the same decimal text exactly when they are equal |
| Text.Split | internal/provider/resource_cluster_user.go:160 | splitting gives at least one part and no part contains the separator |
| Text.JoinSplit | internal/provider/resource_cluster_user.go:160 | joining the parts with the separator gives back the text |
| Text.SplitJoin | internal/provider/resource_cluster_user.go:160-182 | separator-free parts joined and split again come back unchanged |
| Text.TrimRight | pkg/httpx/httpx.go:31-33 | the result is the text without its trailing run of the character, and nothing else is removed |
| FakeState.NewClusterState | internal/cloudsdk/fake/state.go:19-24 | a new cluster holds its tenant, no users and a nil private-link map |
| FakeState.AddClusterUser | internal/cloudsdk/fake/state.go:26-31 | adding a user adds exactly their name and leaves the tenant and links alone |
| FakeState.DeleteClusterUser | internal/cloudsdk/fake/state.go:33-38 | deleting a user removes exactly their name and leaves the tenant and links alone |
| FakeState.GetClusterUser | internal/cloudsdk/fake/state.go:40-49 | a user is found exactly when their name is stored; otherwise the user-not-found sentinel wrapped with the name |
| FakeState.GetAfterAddClusterUser | internal/cloudsdk/fake/state.go:26-49 | after adding a user they are found, and every other name answers as before |
| FakeState.GetAfterDeleteClusterUser | internal/cloudsdk/fake/state.go:33-49 | after deleting a name it is not found, every other name answers as before, and deleting an absent name changes nothing |
| FakeState.AddPrivateLink | internal/cloudsdk/fake/state.go:58-63 | on a cluster whose link map exists, adding a link adds exactly its ID text and leaves the tenant and users alone |
| FakeState.DeletePrivateLink | internal/cloudsdk/fake/state.go:65-70 | deleting from a nil map changes nothing; otherwise exactly the ID text is removed |
| FakeState.GetPrivateLink | internal/cloudsdk/fake/state.go:72-81 | a link is found exactly when the map exists and holds its ID text; otherwise the private-link-not-found sentinel |
| FakeState.GetAfterAddPrivateLink | internal/cloudsdk/fake/state.go:58-81 | after adding a link it is found, and every other ID answers as before |
| FakeState.FreshClusterHasNoLinkMap | internal/cloudsdk/fake/state.go:19-24 | a new cluster has no link map, so no link is ever found in it, deleting one changes nothing, and adding one would write into a nil map |
| FakeState.RegionCluster | internal/cloudsdk/fake/state.go:101-111 | a cluster is found exactly when its namespace ID text is a key of the region; otherwise cluster-not-found |
| FakeState.AddCluster | internal/cloudsdk/fake/state.go:113-118 | adding a cluster adds exactly its namespace ID text as a key |
| FakeState.DeleteCluster | internal/cloudsdk/fake/state.go:120-125 | deleting removes exactly that namespace ID text |
| FakeState.ReplaceCluster | internal/cloudsdk/fake/state.go:127-132 | replacing stores the cluster under that namespace ID text, adding the key if needed |
| FakeState.RegionClusterAfterChange | internal/cloudsdk/fake/state.go:101-132 | after an add, a replace or a delete, the changed ID answers with the new cluster or not-found, and every other ID answers as before |
| FakeState.GetRegionState | internal/cloudsdk/fake/state.go:138-143 | a known region is returned as is; an unknown one is created empty and recorded; afterwards the region always exists |
| FakeState.GetRegionStateStable | internal/cloudsdk/fake/state.go:138-143 | asking for the same region again changes nothing more |
| FakeState.PutRegion | internal/cloudsdk/fake/state.go:138-143 | the region holds the new value and every other region name is kept |
| FakeState.FirstRegionWith | internal/cloudsdk/fake/state.go:146-151 | the first region in iteration order holding the key, and none exactly when no region in the order holds it |
| FakeState.GetClusterByNsID | internal/cloudsdk/fake/state.go:145-153 | whatever the map iteration order, a cluster is found exactly when some region holds the ID, and then it is that region's cluster; otherwise cluster-not-found |
| FakeState.OrderIrrelevant | internal/cloudsdk/fake/state.go:146 | when no ID is in two regions, the iteration order does not change the answer |
| FakeState.GetNsIDByRegionAndName | internal/cloudsdk/fake/state.go:155-163 | the region is created when missing; an ID is returned exactly when some cluster there has the name; otherwise cluster-not-found naming the region and name |
| FakeState.FirstNamed | internal/cloudsdk/fake/state.go:157-162 | the namespace ID of a cluster with the name, found exactly when one exists |
| FakeState.FirstNamedIndex | internal/cloudsdk/fake/state.go:157-162 | the position of the first cluster with the name in iteration order, and none exactly when no cluster has it |
| Fake.FakeTier | internal/cloudsdk/fake/fake.go:128-158 | a fake tier carries the requested tier ID and a 20 GiB etcd size limit |
| Fake.CatalogIndex | internal/cloudsdk/fake/fake.go:354-366 | the catalog entry with the ID, and none exactly when no entry has it |
| Fake.ComponentReqToComponent | internal/cloudsdk/fake/fake.go:354-366 | a known type keeps the request's ID and replica and takes the catalog's CPU and memory; an unknown type gives nil; a nil request is dereferenced |
| Fake.CatalogTypesResolve | internal/cloudsdk/fake/fake.go:354-366 | each catalog type resolves to its own size whatever the replica count |
| Fake.EtcdRequestToResource | internal/cloudsdk/fake/fake.go:337-352 | the etcd request resolves like a component and keeps its requested size |
| Fake.ReqResourceToClusterResource | internal/cloudsdk/fake/fake.go:319-335 | the four components go through the catalog, the file cache size becomes the compute cache size, the meta store keeps its type and etcd, and the etcd component is left zero |
| Fake.AddFreshThenFind | internal/cloudsdk/fake/fake.go:87-126 | adding a cluster with an unused namespace ID to its own region keeps the state consistent, and a lookup then finds it there |
| Fake.CreateClusterAwait | internal/cloudsdk/fake/fake.go:87-126 | the new tenant has the given namespace ID, region, name, tier, image and configs, the next ID in its region, the default cluster name when none is given, and catalog-resolved resources; a missing field is dereferenced |
| Fake.CreateThenFind | internal/cloudsdk/fake/fake.go:87-126 | after creating a cluster with an unused namespace ID, the state is consistent and looking the ID up finds exactly that cluster |
| Fake.Store | internal/cloudsdk/fake/fake.go:208-261 | writing a cluster back changes only its own key in its own region |
| Fake.StoreThenFind | internal/cloudsdk/fake/fake.go:208-261 | a stored cluster is what the next lookup of its ID finds, and no region is added |
| Fake.GetClusterByNsID | internal/cloudsdk/fake/fake.go:65-73 | the tenant is returned exactly when some region holds the namespace ID; otherwise cluster-not-found |
| Fake.IsTenantNameExist | internal/cloudsdk/fake/fake.go:75-85 | the region is created when missing; the answer is true exactly when some cluster there has the name, and never an error |
| Fake.GetClusterByRegionAndName | internal/cloudsdk/fake/fake.go:53-63 | the region is created when missing; a tenant with the name from that region is returned, or cluster-not-found naming the cluster |
| Fake.LookupByNameAgreesWithExists | internal/cloudsdk/fake/fake.go:53-85 | the lookup by name finds a cluster exactly when the name check says the name is taken |
| Fake.ApplyChange | internal/cloudsdk/fake/fake.go:208-261 | each update changes only its own field: the image, the RisingWave config, the etcd config, or the four non-etcd components through the catalog; identity fields never change |
| Fake.UpdateByNsIDAwait | internal/cloudsdk/fake/fake.go:208-261 | an unknown namespace ID fails with the lookup's error and changes nothing; otherwise the changed tenant is written back |
| Fake.UpdateThenFind | internal/cloudsdk/fake/fake.go:208-261 | after an update the state is consistent, only that cluster changed, and looking it up gives the changed tenant |
| Fake.DeleteClusterByNsIDAwait | internal/cloudsdk/fake/fake.go:193-206 | deletion never fails, and an unknown namespace ID changes nothing |
| Fake.RemoveKeyFromRegion | internal/cloudsdk/fake/fake.go:193-206 | removing a key from the one region that holds it keeps the state consistent and leaves no region holding it |
| Fake.DeleteThenMissing | internal/cloudsdk/fake/fake.go:193-206 | after deletion the state is consistent, only that cluster changed, and no region holds the namespace ID |
| Fake.GetClusterUser | internal/cloudsdk/fake/fake.go:263-272 | a user is returned exactly when the cluster exists and holds the name; a missing cluster and a missing user give their own sentinels |
| Fake.CreateCluserUser | internal/cloudsdk/fake/fake.go:274-292 | the user is created with the given name, flags and sysid exactly when the cluster exists; otherwise cluster-not-found and nothing changes |
| Fake.CreateUserThenGet | internal/cloudsdk/fake/fake.go:263-292 | a created user is found afterwards with exactly the given fields |
| Fake.UpdateClusterUserPassword | internal/cloudsdk/fake/fake.go:294-304 | nothing is stored; the call succeeds exactly when the cluster and the user exist |
| Fake.DeleteClusterUser | internal/cloudsdk/fake/fake.go:306-317 | deletion succeeds exactly when the cluster exists; otherwise cluster-not-found and nothing changes |
| Fake.DeleteUserThenGet | internal/cloudsdk/fake/fake.go:263-317 | after deleting a user the cluster is still there and the user is not |
| Fake.CreatePrivateLinkAwait | internal/cloudsdk/fake/fake.go:403-427 | an unknown cluster fails and changes nothing; a cluster without a link map is written through a nil map; otherwise the new link has the given ID, name and target, the fake endpoint, Created and Accepted, and the cluster's tenant ID |
| Fake.CreatedClusterRejectsLinks | internal/cloudsdk/fake/fake.go:87-126 | a cluster the fake has just created has no link map, so creating a private link on it writes through a nil map |
| Fake.DeletePrivateLinkAwait | internal/cloudsdk/fake/fake.go:429-440 | deletion succeeds exactly when the cluster exists; otherwise cluster-not-found and nothing changes |
| Fake.FirstHolder | internal/cloudsdk/fake/fake.go:388-398 | the first cluster in one region's map order that holds the link, and none exactly when no cluster there does |
| Fake.LinkInRegions | internal/cloudsdk/fake/fake.go:388-398 | a link is found exactly when some cluster of the visited regions holds it, and then it is that cluster's link and namespace ID |
| Fake.GetPrivateLink | internal/cloudsdk/fake/fake.go:385-401 | a link is returned exactly when some cluster holds it, paired with that cluster's namespace ID; otherwise private-link-not-found naming the ID |
| Fake.CreateLinkThenGet | internal/cloudsdk/fake/fake.go:385-427 | once a link is created, looking its ID up succeeds whatever the map order |
| Fake.ComponentList | internal/cloudsdk/fake/fake.go:178-190 | the five component names select a list, etcd selecting the etcd nodes, and any other name selects nothing |
| Fake.GetAvailableComponentTypes | internal/cloudsdk/fake/fake.go:160-191 | an unknown tier and an unknown component are refused with their own messages; otherwise the tier's list for the component |
| Fake.FakeCatalogEverywhere | internal/cloudsdk/fake/fake.go:128-191 | a lookup succeeds exactly for the Standard, BYOC and Invited tiers and the five components, and always returns the catalog |
| PkgFake.GetRegionState | pkg/cloudsdk/fake/fake.go:40-45 | a known region is returned as is; an unknown one is created empty and recorded |
| PkgFake.IndexOf | pkg/cloudsdk/fake/fake.go:98-106 | the position of the first cluster with the namespace ID, and none exactly when no cluster has it |
| PkgFake.RegionGet | pkg/cloudsdk/fake/fake.go:98-106 | the first cluster with the namespace ID, found exactly when one exists; otherwise the bare cluster-not-found sentinel |
| PkgFake.AddCluster | pkg/cloudsdk/fake/fake.go:108-113 | the cluster is appended at the end and every earlier entry is kept |
| PkgFake.DeleteCluster | pkg/cloudsdk/fake/fake.go:115-124 | only the first cluster with the namespace ID is removed and the rest keep their order; no match changes nothing |
| PkgFake.ReplaceCluster | pkg/cloudsdk/fake/fake.go:126-135 | the first match is overwritten in place, length and every other entry unchanged; no match changes nothing |
| PkgFake.RegionGetAfterAdd | pkg/cloudsdk/fake/fake.go:98-113 | appending never hides an existing match, and a new match is found only when none existed |
| PkgFake.DeleteRemovesOnce | pkg/cloudsdk/fake/fake.go:98-124 | when the namespace ID appears at most once, it is gone after deletion |
| PkgFake.DeleteKeepsOthers | pkg/cloudsdk/fake/fake.go:98-124 | deleting one namespace ID leaves every other lookup unchanged |
| PkgFake.DeleteKeepsLaterDuplicate | pkg/cloudsdk/fake/fake.go:115-124 | with a duplicate, deletion removes only the first and the lookup then finds the second |
| PkgFake.ReplaceThenGet | pkg/cloudsdk/fake/fake.go:98-135 | after replacing an existing cluster the lookup finds the new one; replacing a missing one changes nothing |
| PkgFake.ReplaceKeepsOthers | pkg/cloudsdk/fake/fake.go:98-135 | replacing one namespace ID leaves every other lookup unchanged |
| PkgFake.FirstRegion | pkg/cloudsdk/fake/fake.go:47-55 | the first region in map order holding the namespace ID, and none exactly when none does |
| PkgFake.GetClusterByNsID | pkg/cloudsdk/fake/fake.go:47-55 | a tenant with the namespace ID is returned exactly when some region holds it, as that region's lookup gives it; otherwise the bare sentinel |
| PkgFake.FoundWhereHeld | pkg/cloudsdk/fake/fake.go:47-55 | when one region alone holds the ID, the global lookup answers as that region does, whatever the order |
| PkgFake.DeleteClusterByNsID | pkg/cloudsdk/fake/fake.go:57-62 | deletion never fails, keeps the region names and deletes from every region |
| PkgFake.LookupsAlike | pkg/cloudsdk/fake/fake.go:47-55 | two states whose regions answer alike for an ID give the same global answer |
| PkgFake.DeleteThenMissing | pkg/cloudsdk/fake/fake.go:47-62 | when no region holds the ID twice, it is not found after deletion |
| PkgFake.DeleteKeepsOtherLookups | pkg/cloudsdk/fake/fake.go:47-62 | deleting one ID leaves every other ID's lookup unchanged |
| PkgFake.FirstNamed | pkg/cloudsdk/fake/fake.go:64-74 | the first cluster with the name in slice order, and none exactly when none has it |
| PkgFake.GetNsIDByRegionAndName | pkg/cloudsdk/fake/fake.go:64-74 | the region is created when missing; the first matching cluster's namespace ID, or the nil UUID with no error |
| PkgFake.IsTenantNameExist | pkg/cloudsdk/fake/fake.go:158-168 | the region is created when missing; true exactly when some cluster there has the name |
| PkgFake.NameResolves | pkg/cloudsdk/fake/fake.go:64-74 | a taken name resolves to the namespace ID of a cluster with that name |
| PkgFake.ReqResourceToClusterResource | pkg/cloudsdk/fake/fake.go:312-326 | the file cache fields and etcd volume size are copied, the five components go through the catalog, and no meta store is set; a nil component or unknown etcd type is dereferenced |
| PkgFake.ResourceAgainstInternal | pkg/cloudsdk/fake/fake.go:312-326 | the public fake agrees with the provider's fake on the four non-etcd components but fills etcd and leaves the meta store unset |
| PkgFake.NewTenant | pkg/cloudsdk/fake/fake.go:170-201 | the new tenant carries the given ID, namespace ID, region, name, image and configs and the converted resources, with status, health, tier and cluster name left empty |
| PkgFake.CreateClusterAwait | pkg/cloudsdk/fake/fake.go:170-201 | the tenant ID is the region's cluster count plus one, and a created tenant is appended to its region |
| PkgFake.CreateThenFind | pkg/cloudsdk/fake/fake.go:170-201 | with a fresh namespace ID, the created tenant is what the next lookup finds |
| PkgFake.GetAvailableComponentTypes | pkg/cloudsdk/fake/fake.go:203-249 | a lookup succeeds exactly for the Standard tier and the five components, always with the catalog, else with its own message |
| PkgFake.UpdateByNsIDAwait | pkg/cloudsdk/fake/fake.go:257-310 | an unknown ID fails and changes nothing; otherwise the changed tenant replaces the old one in its region |
| PkgFake.UpdateThenFind | pkg/cloudsdk/fake/fake.go:257-310 | after an update, with the ID in one region only, the lookup gives the changed tenant and no region is added |
| PkgFake.UpdateKeepsOtherLookups | pkg/cloudsdk/fake/fake.go:257-310 | an update leaves every other ID's lookup unchanged |
| ClusterSpec.As | internal/provider/resource_cluster.go:349-371 | a known object is read as its value; a null or unknown one is read as the zero value, as the object-as options allow |
| ClusterSpec.ToComponent | internal/provider/resource_cluster.go:389-409 | a component built from the plan carries no CPU or memory text |
| ClusterSpec.FromComponent | internal/provider/resource_cluster.go:252-300 | storing a component in the plan and building it back keeps its type ID and replica count |
| ClusterSpec.ComponentSpecOf | internal/provider/resource_cluster.go:252-300 | the stored spec of a component reads back to that component without its CPU and memory text |
| Framework.AwaitFailure | internal/provider/resource_cluster.go:516-530 | an awaited call's failure is always an error, summarised as a timeout exactly when the error is a wait timeout or the caller's summary already says so |

## Left out

- Timers and polling loops: `internal/utils/wait/wait.go`, `pkg/utils/wait/wait.go` and the ticker of `pkg/httpx/httpx.go:133-158` are time-based. Only the decision each tick makes is modelled (`Httpx.Poll` runs over a given sequence of tick answers).
- Network transport and JSON: URL joining, `net/http`, JSON decoding (`pkg/httpx/httpx.go:170-209`), the generated OpenAPI clients and every `*WithResponse` call. Responses are parameters. `ResponseHelper.JSON` is not modelled.
- Httpx.Get, Httpx.Post, Httpx.Put and Httpx.Delete take the path already formatted; the `fmt.Sprintf` arguments are not modelled.
- Httpx.Do stops at the request-building decisions; the sending itself is a parameter.
- `uuid.New` and the clock-seeded `Usesysid` of the internal fake are parameters.
- Terraform framework plumbing: Schema, Metadata, the Configure type assertions, `tfsdk` Get/Set, `types.ObjectValueMust`, tflog logging, and the standard-output debug print at `internal/provider/resource_cluster.go:454-455`.
- Locking and caller introspection in the fakes: mutexes and `debugFuncCaller`.
- Generated or trivial code: the generated mock, `pkg/httpx/testutils.go`, `internal/provider/utils.go` (pure delegation), `pkg/utils/ptr/ptr.go`, `internal/provider/component_type.go` and `internal/provider/doc.go`.
- The delete-and-recreate Create flow that only the acceptance tests expect.
- Fake.GetPrivateLinks and Fake.GetPrivateLinkByName: both call `ClusterState.GetPrivateLinks`, which `internal/cloudsdk/fake/state.go` does not define, and both serve only that test flow.
- Fake.Ping: it always returns nil.
- FakeState.AddPrivateLink: writing into the nil link map of a fresh cluster is a Go panic. The model makes an existing map a precondition. `FakeState.FreshClusterHasNoLinkMap` and `Fake.CreatedClusterRejectsLinks` show when that map is missing.
- PkgAccount.NewAccountServiceClient: `pkg/cloudsdk/account.go:54` passes three arguments to the two-parameter `ExpectStatusCodeWithMessage` of `pkg/cloudsdk/apigen/helpers.go:10`, which does not compile. It is modelled with the two arguments the helper takes.
- LegacyCluster: `internal/provider/cluster.go` names two things its imports do not define. `wait.ErrWaitTimeout` (lines 478 and 702) refers to the `pkg/utils/wait` package, which has no such sentinel; the model reads it as the `ErrWaitTimeout` of `internal/utils/wait/wait.go:11`, the `WaitTimeout` kind that `Framework.AwaitFailure` tests. `rs.GetClusterByName` (line 528) is not exported by `pkg/cloudsdk`; the model reads it as the unexported `getClusterByName` of `pkg/cloudsdk/region.go:109`, the lookup by name of `PkgRegion.GetClusterByName`. The file does not compile as written, so these readings are a choice, not the code's behaviour.
- InternalCloudSdk: the `CreatePrivateLinkAwait` declared in the interface at `internal/cloudsdk/cloudsdk.go:65` does not match the implemented signature. The implementation is modelled.
- ResourceCluster: `internal/provider/resource_cluster.go` also calls names its imports do not define. `wait.ErrWaitTimeout` (lines 518, 663, 683, 703, 744 and 785) refers to the `pkg/utils/wait` package imported at line 25, which has no such sentinel; the model reads it as the `ErrWaitTimeout` of `internal/utils/wait/wait.go:11`, the `WaitTimeout` kind that `Framework.AwaitFailure` tests. The client is typed at line 43 as `pkg/cloudsdk.CloudClientInterface` (`pkg/cloudsdk/client.go:21-43`), which has no `IsTenantNameExist`, `CreateClusterAwait`, `GetClusterByNsID` or `...ByNsIDAwait` methods; the calls at lines 461, 516, 562, 611, 662, 682, 702, 726 and 784 are read as the cloud client's operations of those names, whose answers are parameters, and the not-found error tested at line 567 is `pkg/cloudsdk`'s `ErrClusterNotFound` (`PkgClusterNotFound`). The file does not compile as written, so these readings are a choice, not the code's behaviour.

- Library code: `github.com/google/uuid` and `net/textproto` are not part of this model's sources. `Uuid.Parse` and `Httpx.CanonicalKey` follow the published behaviour of `uuid.Parse` and `textproto.CanonicalMIMEHeaderKey`. As in `uuid.Parse`, the 38-byte form drops its first byte and ignores its last without checking for braces.
- Integer widths: Go's `int` and `int64` conversions of replica counts and sizes are unbounded `int`s, except in the cluster-ID encoder, whose 64-bit buffer is modelled exactly.
- Tf.Quote: Go's `%q` escaping is reduced to surrounding the text with double quotes. Text containing quotes, backslashes or control characters renders differently in Go.
- GetKey: the terminal prompts, environment reads, printing, floating-point JSON and Python's `str()` rendering are left out. The server's reply is a function of the request.

## Findings

| source | as written | input that shows it | evidently intended | confidence | as-written member | corrected member |
|---|---|---|---|---|---|---|
| internal/provider/resource_cluster.go:452 | Create discards the diagnostics of the plan-to-tenant conversion. The NsID is computed, so it is unknown at create time, and its rendering never parses. The conversion then stops early, leaving the tenant's name empty and its component pointers nil, and building the create request dereferences them. | any plan whose `nsid` is unknown and whose (empty) name is reported free | stop on the conversion's diagnostics, and do not require an NsID before the cluster exists | not executed | ResourceCluster.CreateWithUnknownNsIdPanics | ResourceCluster.CreateIntended |
| internal/provider/provider.go:80 | The API secret defaults from `data.APIKey`, so the block's `api_secret` is never read and a block `api_key` is sent as the secret too. | a block with `api_key = "k"` and `api_secret = "s"`: the client is built with secret "k" | take the secret from the block's `api_secret`, else from RWC_API_SECRET | not executed | ProviderConfig.SecretDiffersFromIntended | ProviderConfig.ConfigureIntended |
