/** The custom resource, as far as validation, the endpoints and the pass look at it. */
module Spec {
  import opened Trees
  import opened LastApplied
  import opened ConfigEnvs

  /** A plain value that a secret reference overrides. */
  datatype Credential = Credential(value: string, secret: Option<Selector>)

  datatype RemoteTelemetry = RemoteTelemetry(url: string, apiKey: Credential, metricResolution: string)

  datatype BasicAuth = BasicAuth(username: string, password: Credential)

  datatype Webhook = Webhook(
    url: string, basicAuth: Option<BasicAuth>,
    incidents: bool, deployments: bool, incidentTemplate: string, deploymentTemplate: string)

  datatype Integrations = Integrations(
    slack: Option<Credential>, teams: Option<Credential>, pagerduty: Option<Credential>,
    opsgenie: Option<Credential>, webhook: Option<Webhook>)

  datatype Project = Project(
    name: string, remote: Option<RemoteTelemetry>, apiKeys: seq<Credential>, integrations: Option<Integrations>)

  datatype Oidc = Oidc(issuerURL: string, clientID: string, clientSecret: Credential)

  datatype Sso = Sso(enabled: bool, provider: string, saml: Option<Credential>, oidc: Option<Oidc>)

  datatype Ai = Ai(
    provider: string, anthropic: Option<Credential>, openai: Option<Credential>, openaiCompatible: Option<Credential>)

  /** No type is the empty one. */
  datatype Service = Service(
    serviceType: string, port: int, nodePort: int, grpcPort: int, grpcNodePort: int, httpsPort: int, httpsNodePort: int,
    annotations: Annotations)

  datatype Tls = Tls(certSecret: Selector, keySecret: Selector)

  /** No annotations at all is a nil map, which several claims cannot share. */
  datatype Storage = Storage(size: nat, className: Option<string>, retain: bool, annotations: Option<Annotations>)

  datatype S3 = S3(endpoint: string, cacheSize: nat)

  datatype Clickhouse = Clickhouse(
    shards: int, replicas: int, storage: Storage, keeperReplicas: int, keeperStorage: Storage, s3: Option<S3>)

  datatype Ingress = Ingress(path: string, className: Option<string>, annotations: Annotations)

  datatype TelemetrySpec = TelemetrySpec(
    replicas: int, postgres: bool,
    service: Service, grpcDisabled: bool, httpDisabled: bool, tls: Option<Tls>,
    adminPassword: Credential,
    agentsOnly: Option<string>,
    ingress: Option<Ingress>,
    storage: Storage,
    projects: seq<Project>, sso: Option<Sso>, ai: Option<Ai>,
    clickhouse: Clickhouse, externalClickhouse: bool,
    prometheusStorage: Storage, externalPrometheus: bool, storeMetricsInClickhouse: bool)

  /** The data of the secrets in the resource's namespace. */
  type Secrets = map<string, map<string, string>>

  predicate HasSecret(secrets: Secrets, s: Selector) {
    s.name in secrets && s.key in secrets[s.name]
  }
}
