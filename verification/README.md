# A model of the telemetry operator

The telemetry operator is a Kubernetes controller. For each `Telemetry` resource it repeats one pass,
`Reconcile`: it validates the resource, then creates or updates every object the installation consists of
— agents, the telemetry StatefulSet, Prometheus, ClickHouse and its keepers, their claims, services and
secrets — by merging what it wants into what is there. This project states that logic in Dafny 4.11 and proves
what the logic guarantees. `dafny verify dfyconfig.toml` checks all of it.

## The pieces

- **Merging.** `Trees` has spec values as finite trees. `ThreeWayMerge` has the patch pipeline stage by stage
  (difference, deletions, combination, application as in section 2 of RFC 7396) and a specification path by
  path; the two determine each other. `LastApplied` adds the record kept in an annotation and runs of updates
  with foreign edits between them. `MergeSpecs` is the program on the heap, where annotation maps can be one and
  the same object.
- **Names and topology.** `Naming` builds and decodes the names of claims and pods. `Topology` has the claims, the
  StatefulSets and the host lists of ClickHouse and its keepers.
- **Validation.** `Spec` and `Validate` have the resource and `validateTelemetry` as a function; `Validator` is the
  same thing as the program does it, editing the resource block by block; `Normalised` and `Outcome` say what it
  leaves behind, `Reported` which errors it reports and when there are any. `ConfigEnvs` and `Sorting` have the
  environment variables that carry secrets, `References` which references those are and when each finds itself,
  `Endpoints` the ports and addresses everybody works out for themselves.
- **Objects and passes.** `Objects` has the mutate function of every `CreateOrUpdate…` method and what an API
  server may add on admission; `Stability` what no run of them takes away. `Inventory` names the objects of a
  resource, `Reconcile` is a pass as a function of the store, and `Operator` is `Reconcile` as a program, method
  for method, proved to compute that function. `Settling`, `Passes`, `SecretsInPass` and `Convergence` prove
  that two passes are enough. `Installation` lists what belongs to an installation, from the resource alone, and
  proves that a pass leaves just that in the store; `Fulfilment`, `Contents`, `Ownership`, `SecretsOverPasses` and
  `EndToEnd` what these objects hold, who controls them and that they find each other. `StoreRuns` has what holds of one object over runs of passes over all resources and edits; `ClaimAnnotations` and
  `AnnotatedPasses` what becomes of the annotations of claims; `Neighbours` that passes over different resources
  leave each other's objects alone. `ApiServer` is a server that allocates node ports.
- **On the side.** `Instances` interleaves workers and the hourly ticker call by call around `instances` and its
  lock; left alone, a thread of it does what `Reconcile` does. `Postgres` has the connection string and a reader
  for it. `Versions` has precedence and the choice of image versions.

## What was found

Four promises hold only under a condition, which the model states exactly.

- The claims built in one loop share the annotation map of the resource. Creating the first claim writes the
  record into that map; creating the second drops what the record lists. A pass therefore annotates all claims of
  a component exactly when there is nothing to annotate or at most one of them was missing
  (`ClaimsAnnotatedIffOneCreate` for the heap, `PassAnnotatesIff` for whole passes). A resource with annotations
  for the claims of its usual three keepers meets neither (`KeepersMissAnnotations`). The next pass repairs it
  (`NextPassRepairs`, `TwoPassesAnnotate`).
- Claims created in advance and claims of the generated pods coincide exactly when neither count is negative and
  the replica count fits an `int32` (`ClaimsMatchPodsIff`): the two builders treat zero, negative and
  oversized counts differently.
- The connection string reads back exactly when no key has a blank or `=` and no value has a quote or a backslash
  (`RoundTripIffClean`, and `StringHoldsGivenIff` for what goes in).
- Each placeholder's variable is bound to its own reference exactly when no two of the references bound have the
  same checksum (`BoundToOwnReferenceIff`). The references are read off the spec and the secrets beforehand. API
  keys are bound without a look at the store, so a slash in the name of the secret they refer to is not caught,
  and with one, two keys can share a variable whatever the checksum (`SlashedKeysShareAVariable`).

## What is taken as given

- Calls to the API server succeed, unless a mutate function returns an error; then nothing is stored. Failing
  role and binding creations are part of `Instances`.
- Admission is a function of the key and the object written (`OnlyFills`). It fills in absent parts of a spec; it adds
  nothing to rules or to a secret and only node ports to the entries of a service's ports. Which ports get one
  may depend on the whole spec, the type of the service among it; a service written with a spec that has been
  through admission keeps its ports. A server that stores as it is told (`StoringAsWrittenOnlyFills`) and one that
  allocates by type (`AllocatingOnlyFills`) are such servers. One that takes a node port out again that was
  written, say with a service whose type has changed, is not.
- Controller references are matched by kind and name, not by uid. Other owner references are not modelled.
- `Get` returns an object that shares nothing with the one it is read into.
- Spec values are objects and scalars. Lists with a merge key are objects by that key, other lists are scalars,
  JSON nulls are absent, and JSON member names are matched as written. Encoding and decoding the record are
  inverse, and a record text is identified with what it decodes to.
- CRC-32, SAML parsing, random strings, version parsing and whatever the builders put into an object beside what
  is spelled out here are parameters, each a function of its inputs. For the Prometheus headers that means at
  most one, since they are joined in map order.
- The selectors of a TLS section are not nil. Counts are not negative where a builder would index an empty
  list (`Counted`). Nobody asks for the operator's own record among the annotations of a spec (`NoRecords`).
- Error messages stand without the error they wrap.

## Model

| member | source | states |
|---|---|---|
| ThreeWayMerge.MergeMeetsPathSpec | controller/utils.go:75-101 | for every original, target and live spec and every path: the target's entry where the target has one, nothing where the original had the first key that leaves the target, otherwise what was there |
| ThreeWayMerge.PathSpecDeterminesMerge | controller/utils.go:75-101 | no other tree meets that path-wise specification, so it is complete |
| ThreeWayMerge.PipelineIsOverlay | controller/utils.go:79-88 | difference, deletions, combination and application together equal the direct member-by-member overlay |
| ThreeWayMerge.MergeIsAFixpoint | controller/utils.go:84-86 | merging the same target again yields the empty patch, even after absent paths have been filled in |
| LastApplied.DocumentsAreRead | controller/utils.go:52-62 | a record read back from its document is what was written; other documents are read as the source falls back |
| LastApplied.UpdateIsAFixpoint | controller/utils.go:43-101 | the same update again changes neither the spec, as filled in meanwhile, nor the annotations, record included |
| LastApplied.LastTargetWins | controller/utils.go:43-101 | after any run of updates and foreign edits that ends in an update, the spec agrees with the last target |
| LastApplied.NoOwnedPathLeftBehind | controller/utils.go:56-80 | after any run, a path present is the record's or was put there by others; nothing owned and dropped remains |
| LastApplied.ForeignPathKept | controller/utils.go:75-101 | a path under no owned key is, after any run, what the last foreign edit left |
| LastApplied.NoOwnedAnnotationLeftBehind | controller/utils.go:56-66 | after any run, an annotation is the record, listed in it, or somebody else's |
| LastApplied.ForeignAnnotationKept | controller/utils.go:59-65 | an annotation no update targets is, after any run, what the last foreign edit left |
| MergeSpecs.MergeSpecs | controller/utils.go:37-103 | the heap program is the update function, for separate annotation maps and for one shared by object and target; an unreadable record leaves the spec alone |
| MergeSpecs.DropOwned | controller/utils.go:59-61 | deleting while ranging over the record removes exactly what it lists |
| MergeSpecs.AddTargets | controller/utils.go:63-65 | adding the targets overrides, in any map order and even into the map ranged over |
| MergeSpecs.ClaimsAnnotatedIffOneCreate | controller/clickhouse.go:106-116 | a pass annotates all claims as wanted if and only if there are no annotations or at most one claim is created |
| MergeSpecs.NextPassRepairs | controller/controller.go:345-357 | the next pass leaves every claim with all wanted annotations |
| ClaimAnnotations.LoopAnnotates | controller/controller.go:345-357 | claim by claim, the loop of a pass over the store annotates as the heap program does on the shared map, whatever admission adds |
| AnnotatedPasses.PassAnnotatesIff | controller/clickhouse.go:106-116 | for each of the four loops, over the claims of telemetry, Prometheus, the keepers and ClickHouse: a whole pass from any store leaves all its claims annotated as wanted if and only if there is nothing to set or at most one of them was missing |
| AnnotatedPasses.KeepersMissAnnotations | controller/clickhouse_keeper.go:57-86 | with annotations for the claims of three keepers, none of them there yet, the first pass leaves some claim without them |
| AnnotatedPasses.TwoPassesAnnotate | controller/controller.go:345-357 | after two passes every claim has them |
| Naming.ClaimNamesDecode | controller/clickhouse.go:111 | a decoder recovers resource, component, shard and replica from every claim name, whatever dashes and digits the resource's name has |
| Naming.ClaimNamesAreInjective | controller/telemetry.go:371 | claims of different resources, components, shards or replicas never share a name |
| Naming.DecimalRoundTrip | controller/clickhouse_keeper.go:68 | printing a count in decimal can be undone |
| Topology.ClickhousePVCs | controller/clickhouse.go:91-130 | the two loops build the grid of claims, defaulting zero counts and an absent size |
| Topology.GridAt | controller/clickhouse.go:106-128 | the grid has shards × replicas claims, and (s, r) stands at s × replicas + r |
| Topology.ClickhouseStatefulSets | controller/clickhouse.go:132-261 | one StatefulSet a shard, with counts truncated and defaulted as in the source, and the panic on an empty claim list as an error |
| Topology.ClaimsMatchPodsIff | controller/clickhouse.go:91-153 | claims created in advance are the pods' claims, in order, if and only if both counts are non-negative and replicas fit an int32 |
| Topology.RemoteServers | controller/clickhouse.go:365-381 | the template's nested ranges list the hosts shard by shard |
| Topology.EachPodListedOnce | controller/clickhouse.go:367-379 | every generated pod is listed exactly once, in its own shard, under its StatefulSet's service |
| Topology.KeeperPVCs | controller/clickhouse_keeper.go:57-86 | one claim a keeper, named as the keeper's StatefulSet will claim it |
| Topology.TelemetryPVCs | controller/telemetry.go:355-389 | one claim a replica, named as the telemetry StatefulSet will claim it |
| Topology.RaftServers | controller/clickhouse_keeper.go:238-246 | the raft configuration has one server for each ordinal, with the host of that pod |
| Topology.ZookeeperNodes | controller/clickhouse.go:383-390 | ClickHouse is given the hosts of the same keeper pods |
| Topology.KeeperFindsItself | controller/clickhouse_keeper.go:200 | the number at the end of a keeper's host name is the id of exactly one server, which is that pod and a host ClickHouse uses |
| Validator.Validator.Validate | controller/telemetry.go:26-303 | the in-place edits, error list, bindings and created secrets are those of the validation function |
| Validator.Validator.EnsureApiKeySecrets | controller/telemetry.go:196-198 | whatever the map order, every wanted key exists afterwards and no existing one has changed |
| Normalised.NormalisedIsWellFormed | controller/telemetry.go:26-303 | for every spec and secret store: replicas imply Postgres, surviving sections have their required fields, no project keeps a secret reference, kept TLS and password references exist |
| Normalised.PlaceholdersAreBound | controller/telemetry.go:92-300 | every reference ends in its own slot: as a placeholder bound in the environment when the secret is there, else as the plain value beside it, and a section left without what it requires is gone |
| Normalised.ApiKeySecretsCovered | controller/telemetry.go:109-115 | every API key reference exists after validation, and nothing that existed has changed |
| Normalised.WantedDependsOnSpecOnly | controller/telemetry.go:92-115 | which secrets are created depends on the spec, not on what resolves |
| Normalised.ShapeDependsOnSpecOnly | controller/telemetry.go:34-67 | counts, switches, storage and ports after validation depend on the spec alone |
| Outcome.NormalisedIs | controller/telemetry.go:34-300 | every field outside the projects after validation, from the input and the secrets: replicas, port numbers, TLS and admin password kept if and only if their secrets are there, the slash on the endpoint, SSO enabled under the right provider if and only if it is complete and valid, the AI provider kept if and only if it has a key |
| Reported.ErrorsAre | controller/telemetry.go:28-300 | the errors of a validation are exactly these, in this order: one for each reference that is not there and for each section that cannot work |
| Reported.ReportsIff | controller/telemetry.go:34-300 | there are errors if and only if the resource is misconfigured, a condition on its spec and on the secrets as they are before |
| Normalised.CacheSizeIsChecked | controller/telemetry.go:50-61 | a cache not smaller than its volume is always reported, and the sizes are left as they were |
| ConfigEnvs.Envs.Add | controller/utils.go:119-124 | binds the variable named after the checksum and returns its placeholder |
| ConfigEnvs.Envs.List | controller/utils.go:126-133 | every binding once, in strictly increasing order of names, from any map order |
| ConfigEnvs.ListIsDetermined | controller/utils.go:126-133 | two such lists of the same bindings are equal |
| References.EnvironmentIsMadeFrom | controller/telemetry.go:92-300 | the environment of a pass is made from exactly the references that can be read off spec and secrets beforehand: every API key's, and every other that validation looks up and finds |
| References.BoundToOwnReferenceIff | controller/telemetry.go:92-300 | after validation each of these references finds itself behind its own placeholder if and only if no two of them have the same checksum |
| References.PlaceholdersTurnIntoSecrets | controller/utils.go:119-124 | then every placeholder, substituted in the container, turns into the content of the secret it stands for |
| References.BoundWithoutSlashes | controller/utils.go:119-124 | when neither secrets nor API key references have a slash in a name, that is so if and only if the checksum has no collision among the references bound |
| References.SlashesComeFromKeys | controller/telemetry.go:109-115 | nothing but an API key reference can bring a slash in, since everything else has been found in the store |
| References.KeysShareAVariable | controller/telemetry.go:109-115 | two API keys of one project or of two that refer to different keys of one checksum get the same placeholder, and at least one of them does not find its own secret behind it |
| References.SlashedKeysShareAVariable | controller/telemetry.go:109-115 | that happens to the keys c of a/b and b/c of a, wherever projects refer to them, in every validation, whatever the checksum, the store and the rest of the spec |
| Endpoints.EndpointsAgree | controller/telemetry.go:317-344 | after validation the agents' scheme and port, the ingress backend and the probe are ports of the service and the container, also when TLS was dropped |
| Endpoints.TelemetryServicePorts | controller/telemetry.go:317-344 | once the spec is well formed, the ports built have numbers and different names and go to the container's ports, one each |
| Endpoints.TelemetryContainerPorts | controller/telemetry.go:521-560 | once the spec is well formed, the container names exactly the ports the service serves, the probe's among them |
| Endpoints.NodeAgentURL | controller/node_agent.go:26-35 | without a URL of its own and once the spec is well formed, the URL is that of an exposed port, under the scheme it is named after, that goes to a named container port |
| Endpoints.ClusterAgentURL | controller/cluster_agent.go:110-119 | the same for the cluster agent, which takes a given URL as it is |
| Objects.EnsuredTwice | controller/controller.go:248-276 | for every kind but services, one CreateOrUpdate makes the next with the same wishes a no-op, from any live object |
| Stability.ServiceStep | controller/controller.go:359-380 | an explicit node port is set, an allocated one kept |
| StoreRuns.PassHistory | controller/controller.go:140-246 | for each object that is there, a whole pass is a run of identical events on it: none if it does not belong to the installation, some if it does |
| StoreRuns.PassCreates | controller/controller.go:140-246 | an object that belongs and is not there is created once, and then has the history of a live one |
| StoreRuns.ClaimsNeverShrink | controller/controller.go:345-357 | in the store, over any run of passes over any resources with edits between them, a claim requests, from its creation on, the maximum of all sizes its own resource wanted of it and all growth |
| StoreRuns.NodePortsStay | controller/controller.go:359-380 | in the store, over any such run in which a port stays in its service, whatever happens to the type and the rest of the service, its node port is the last explicit one, or else the one allocated |
| StoreRuns.UnreadableStays | controller/utils.go:54-56 | an object whose record is no JSON object is left alone by every pass |
| Stability.ServiceSettles | controller/controller.go:359-380 | once a service has been written twice, a third pass finds nothing to do |
| Stability.OnePassIsNotEnough | controller/controller.go:359-380 | where a node port is allocated on the first write, the second pass writes once more, so two passes is the least |
| Stability.ClaimTemplatesStay | controller/controller.go:335-343 | a StatefulSet keeps the claim templates it was found with |
| ApiServer.AllocatingOnlyFills | controller/telemetry.go:346-350 | a server that allocates node ports by the type of the service only fills, so the results here hold of it |
| ApiServer.NodePortServiceNeedsTwoPasses | controller/controller.go:359-380 | there, a service of type NodePort gets its port on the first write and is written again by the second pass |
| Installation.InstalledIff | controller/controller.go:171-233 | after any pass from any store an object is there if and only if it belongs to the installation, as read off the resource, or was there and is the old deployment or an ingress no longer wanted |
| Installation.WantedIff | controller/controller.go:171-233 | the items of a pass make exactly what belongs, secrets of API keys apart, whose creation is validation's |
| Ownership.EnsuredControls | controller/controller.go:258-262 | one CreateOrUpdate leaves somebody else's controller alone, and otherwise puts the resource's reference on, or takes it off when the object is to be retained |
| Ownership.PassControls | controller/controller.go:248-276 | after any pass every object of the installation is controlled by the resource, unless it is the cluster role or its binding, a claim to be retained or a secret of API keys, or somebody else's |
| Ownership.DeletionLeaves | controller/controller.go:258-262 | once the resource is deleted and what it controlled is collected, of all its pass had made stays exactly that |
| Contents.PassHoldsBuilt | controller/controller.go:313-343 | roles, configuration, workloads and fixed services hold what the builders make of the resource as validated against the secrets in the store |
| Contents.PassKeepsPlain | controller/controller.go:382-398 | accounts and bindings are as built when new and otherwise as they were |
| Contents.PassHoldsClaims | controller/controller.go:345-357 | the claims of each component request the size of its own section, or 10 GiB, or 100 GiB for ClickHouse, or what they had if that is more, and are of its class |
| Contents.PassHoldsService | controller/telemetry.go:305-353 | the telemetry service has exactly the ports the resource asks for, with default numbers where needed, its node ports and its type |
| Contents.PassAnnotates | controller/controller.go:359-434 | service and ingress carry the annotations asked for, the class of the ingress among them under the older API |
| Inventory.KeysTellResources | controller/controller.go:140-246 | a key in the store tells the object and the resource's name, and the namespace where there is one, whatever resources are called; only secrets can be anybody's |
| Inventory.KeysDiffer | controller/controller.go:140-246 | so no two objects of a resource share a key |
| Neighbours.PassLeavesOthers | controller/controller.go:140-246 | a pass leaves every object of another resource as it was, but for secrets it wants itself and the cluster-wide role of resources of its own name |
| Neighbours.PassKeepsLive | controller/controller.go:197-204 | a pass takes away nothing but its old deployment, once, and an ingress nobody wants |
| Operator.TelemetryReconciler.Reconcile | controller/controller.go:140-246 | one request: a missing resource is unregistered and the last one takes its cluster role and binding along; a present one is registered, its pass run as the pass function says, and its status and requeue set from what validation reported; every registered instance has its cluster role and binding in the store. The status is Misconfigured, and the request comes again after a minute, if and only if the resource is misconfigured |
| Operator.PassMirrors | controller/controller.go:164-188 | what a pass does to instances, cluster roles and bindings is what an undisturbed thread of the interleaving model does |
| Operator.RemovalMirrors | controller/controller.go:145-162 | and so is what a request for a missing resource does |
| Operator.TelemetryReconciler.RunPass | controller/controller.go:171-233 | the program's store, deletion flag and errors after a pass are those of the pass function |
| Operator.TelemetryReconciler.CreateOrUpdatePVC | controller/controller.go:345-357 | stores the merged claim with the larger request, and leaves the shared annotation map as the claim loop's function says |
| Operator.TelemetryReconciler.CreateOrUpdateService | controller/controller.go:359-380 | stores the merged service with the target's ports and the live node ports |
| Operator.TelemetryReconciler.CreateOrUpdateStatefulSet | controller/controller.go:335-343 | stores the merged StatefulSet with the claim templates put back |
| Operator.TelemetryReconciler.CreateOrUpdateSecret | controller/controller.go:293-311 | generates exactly the missing keys, and does nothing when no key is wanted |
| Operator.TelemetryReconciler.CreateOrUpdateWorkload | controller/controller.go:321-333 | stores the merged Deployment or DaemonSet |
| Operator.TelemetryReconciler.CreateOrUpdateIngress | controller/controller.go:412-434 | under either API version stores the merged ingress, or deletes it when none is wanted |
| Operator.TelemetryReconciler.CreateOrUpdateConfigMap | controller/controller.go:313-319 | overwrites the data of the config map and nothing else |
| Operator.TelemetryReconciler.CreateOrUpdateRole | controller/controller.go:392-406 | overwrites the rules of a role or cluster role |
| Operator.TelemetryReconciler.CreateOrUpdateServiceAccount | controller/controller.go:382-390 | ensures the account and its binding, and changes neither once they exist but for the owner |
| Operator.TelemetryReconciler.DeleteOldDeployment | controller/controller.go:197-200 | deletes the old deployment once in the life of the process |
| SecretsInPass.ValidationNormalises | controller/controller.go:174-175 | in a pass, validation reads and creates secrets in the store and still computes the normal form of the spec |
| Passes.PassMakesReady | controller/controller.go:140-246 | after any pass from any store every object it wants exists |
| Passes.SecretsSettle | controller/controller.go:216-217 | secrets are settled after one pass, also one that validation and ClickHouse own in turn |
| Convergence.ThirdPassChangesNothing | controller/controller.go:140-246 | from any store, for any map orders and random strings, the third pass leaves store and flag exactly as the second did |
| Convergence.TwoPassesReachAFixpoint | controller/controller.go:140-246 | two passes reach a state no further pass changes |
| Convergence.ConvergesInTwoPasses | controller/controller.go:140-246 | any number of passes from two up ends where two end |
| Convergence.SameTurn | controller/telemetry.go:196-300 | from the second pass on validation resolves the same, though secrets created in the first may have changed what it resolves |
| Fulfilment.EnsuredMeets | controller/controller.go:248-276 | one CreateOrUpdate makes an object of any kind what it should be, whatever it was before |
| Fulfilment.PassFulfils | controller/controller.go:140-246 | after any pass every object of the installation, the ClickHouse secret included, exists and holds all the validated spec makes of it, if its record could be read |
| SecretsOverPasses.PassKeepsSecrets | controller/controller.go:293-311 | no pass changes or removes a key of any secret in any namespace |
| SecretsOverPasses.RunKeepsSecrets | controller/controller.go:293-311 | nor does any run of passes |
| SecretsOverPasses.PassCoversApiKeys | controller/telemetry.go:109-115 | after any pass every secret key a project refers to for an API key exists |
| EndToEnd.CacheFitsEveryClaim | controller/clickhouse.go:297-301 | without a reported S3 error, the configured cache is smaller than what every single ClickHouse claim requests after the pass |
| EndToEnd.AgentsFindTheService | controller/node_agent.go:26-35 | after any pass the host of the agents' URL is the service in the store, and the service offers the port under its scheme, https exactly with TLS or without HTTP, and sends it to a named container port |
| EndToEnd.PrometheusIsFound | controller/telemetry.go:637 | the Prometheus URL of the telemetry container is the host of the service in the store and one of its ports |
| EndToEnd.ClickhouseIsFound | controller/clickhouse.go:365-390 | StatefulSets and services of ClickHouse and keepers are in the store, and the services offer the ports named in the configurations |
| EndToEnd.AddressesNameThem | controller/clickhouse.go:365-390 | the addresses in the configurations are those of these services and of the pods of these StatefulSets |
| Instances.RegisteredIff | controller/controller.go:147-168 | after any schedule of workers and ticker a request is in `instances` if and only if it has been registered and not been unregistered since |
| Instances.DeletedOnlyWhenEmpty | controller/controller.go:147-162 | in every schedule cluster roles and bindings disappear only while no instance is registered |
| Instances.RolesStay | controller/controller.go:85-97 | from the step on that registers any instance until one unregisters it no cluster role is lost |
| Instances.RegisteredInstanceKeepsItsRole | controller/controller.go:182-184 | an instance that is registered and not unregistered keeps the cluster role and binding any pass has made since, even when others share the name |
| Instances.WholePassEnds | controller/controller.go:164-188 | left alone, a pass registers its resource, makes its role and binding and changes nothing else |
| Instances.WholeRemovalEnds | controller/controller.go:145-162 | left alone, a request for a missing resource unregisters it and takes role and binding along exactly when nobody is left |
| Instances.TickEnds | controller/controller.go:85-97 | an undisturbed tick leaves exactly those registered that were and whose resources are there |
| Postgres.ConnectionString | controller/postgres.go:11-34 | key by key: host, user, database and password are the database's own, the port if it has one, sslmode is filled in when empty, everything else is left; the non-empty entries are rendered, sorted |
| Postgres.StringHoldsGivenIff | controller/postgres.go:11-34 | the string reads back as exactly these entries if and only if the input has no quote or backslash in a value and no blank or `=` in a key |
| Postgres.TextIsDetermined | controller/postgres.go:27-33 | the string is the same for every map order |
| Postgres.OverrideAgain | controller/postgres.go:11-26 | since the call edits the caller's map, a later call for another database sees the first one's port if and only if it has none of its own and the first one's is new |
| Postgres.SecondCallAgrees | controller/postgres.go:11-34 | two calls with one map give the same string |
| Postgres.QuotedValueIff | controller/postgres.go:30 | one quoted value reads back if and only if it has no quote and no backslash |
| Postgres.RoundTripIffClean | controller/postgres.go:27-33 | the string reads back as exactly the non-empty entries if and only if keys have no blank or `=` and values no quote or backslash |
| Versions.PrecedenceIsTotalPreorder | controller/versions.go:113 | precedence compares any two versions, chains, and ties only versions that differ in build metadata |
| Versions.PrecedenceIsTheStandards | controller/versions.go:113 | precedence is that of section 11 of Semantic Versioning 2.0.0, stated by first differences |
| Versions.FetchAppVersion | controller/versions.go:87-115 | the tag returned is an input tag that parses and that no other parsing tag outranks; none if and only if none parses or listing fails |
| Versions.Images.FetchAppVersions | controller/versions.go:63-85 | afterwards each of the six apps has the image of its own repository: pinned, a maximum of its tags, or "latest" |
| Versions.Images.GetAppImage | controller/versions.go:33-61 | the resource's own image for the app first, else the fetched one with the operator's pull secret; never an empty one |

## Left out

- Lists without a merge key, element order directives and other parts of strategic merge patches: library behaviour.
- What the two ingress builders put into the spec: a parameter, as for other objects; where the class goes is modelled.
- Labels, pod templates, probes, mounts, affinity, images in pods, RBAC rule lists and template text outside the host lists: they are what the builder parameters return.
- Writing the status back: `Reconcile` returns the status it would write and when it asks to run again.
- Listing tags, registry credentials, transport and URL parsing; the tags are an input.
- Manager setup, watches, health checks and the discovery of the ingress API.
- Failing API calls inside a pass, and passes over one resource that overlap in time: a pass here is one step on the store, except in `Instances`, where passes interleave call by call but only roles and bindings are modelled.
- Cluster roles left behind by resources of another name, and the process-wide reach of the deletion flag: nothing useful holds of them beyond what `Instances` states.
- The parts of the resource no property here looks at, `Percent` values and generated deep copies.
- Operator.TelemetryReconciler.Reconcile: one thread at a time; how requests interleave around the lock is in `Instances`.
- Fulfilment.PassFulfils: says nothing of an object whose record cannot be read, because nothing is written to it; `StoreRuns.UnreadableStays` is that half.
- Postgres.RoundTripIffClean: the reader takes quoted values only, as the renderer writes them, not the unquoted values libpq also accepts.
- Instances.RegisteredInstanceKeepsItsRole: speaks of schedules in which nobody unregisters the instance again; a thread that found the resource missing before it was created may still do so.
- Convergence.ConvergesInTwoPasses: image versions and everything outside the store stay as they are between passes; counts are not negative and no annotation of the spec is the record's own.
