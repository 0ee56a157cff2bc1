/** validateTelemetry as a function: secret references become placeholders, and what is left without a
    required field is taken out. */
module Validate {
  import opened Trees
  import opened ConfigEnvs
  import opened Spec
  import opened Topology

  datatype Context = Context(secrets: Secrets, crc: Checksum, samlValid: string -> bool)

  /** What validation produces beside the spec. */
  datatype Log = Log(envs: Bindings, errors: seq<string>, apiKeySecrets: map<string, seq<string>>)

  const EmptyLog: Log := Log(map[], [], map[])

  function Fail(log: Log, error: string): Log { log.(errors := log.errors + [error]) }

  function Bind(ctx: Context, log: Log, s: Selector): Log {
    log.(envs := log.envs[EnvName(ctx.crc, s) := s])
  }

  function Resolve(ctx: Context, log: Log, c: Credential, error: string): (Credential, Log) {
    match c.secret
    case None => (c, log)
    case Some(s) =>
      if HasSecret(ctx.secrets, s) then (Credential(Placeholder(ctx.crc, s), None), Bind(ctx, log, s))
      else (c.(secret := None), Fail(log, error))
  }

  /** An integration that is nothing without its credential. */
  function ResolveOptional(ctx: Context, log: Log, c: Option<Credential>, error: string): (Option<Credential>, Log) {
    if c.None? then (None, log)
    else
      var (resolved, log) := Resolve(ctx, log, c.value, error);
      (if resolved.value == "" then None else Some(resolved), log)
  }

  function ResolveRemote(ctx: Context, log: Log, remote: Option<RemoteTelemetry>): (Option<RemoteTelemetry>, Log) {
    if remote.None? then (None, log)
    else
      var r := remote.value;
      var (key, log) := Resolve(ctx, log, r.apiKey, "Failed to get Remote Telemetry API Key");
      if r.url == "" || key.value == "" || r.metricResolution == "" then
        (None, Fail(log, "Remote Telemetry requires url, apiKey, and metricResolution."))
      else (Some(r.(apiKey := key)), log)
  }

  function Want(log: Log, s: Selector): Log {
    var sofar := if s.name in log.apiKeySecrets then log.apiKeySecrets[s.name] else [];
    log.(apiKeySecrets := log.apiKeySecrets[s.name := sofar + [s.key]])
  }

  function ResolveKey(ctx: Context, log: Log, k: Credential): (Credential, Log) {
    match k.secret
    case None => (k, log)
    case Some(s) => (Credential(Placeholder(ctx.crc, s), None), Bind(ctx, Want(log, s), s))
  }

  function ResolveKeys(ctx: Context, log: Log, keys: seq<Credential>): (r: (seq<Credential>, Log))
    ensures |r.0| == |keys|
    decreases |keys|
  {
    if keys == [] then ([], log)
    else
      var (front, log) := ResolveKeys(ctx, log, keys[..|keys| - 1]);
      var (last, log) := ResolveKey(ctx, log, keys[|keys| - 1]);
      (front + [last], log)
  }

  function ResolveBasicAuth(ctx: Context, log: Log, auth: Option<BasicAuth>): (Option<BasicAuth>, Log) {
    if auth.None? then (None, log)
    else
      var (password, log) := Resolve(ctx, log, auth.value.password, "Failed to get Webhook Basic Auth password");
      (if auth.value.username == "" || password.value == "" then None
       else Some(auth.value.(password := password)), log)
  }

  function ResolveWebhook(ctx: Context, log: Log, webhook: Option<Webhook>): (Option<Webhook>, Log) {
    if webhook.None? then (None, log)
    else
      var w := webhook.value;
      var (auth, log) := ResolveBasicAuth(ctx, log, w.basicAuth);
      (if w.url == "" then None
       else Some(w.(basicAuth := auth,
                    incidents := w.incidents && w.incidentTemplate != "",
                    deployments := w.deployments && w.deploymentTemplate != "")), log)
  }

  function ResolveIntegrations(ctx: Context, log: Log, i: Option<Integrations>): (Option<Integrations>, Log) {
    if i.None? then (None, log)
    else
      var (slack, log) := ResolveOptional(ctx, log, i.value.slack, "Failed to get Slack Token");
      var (teams, log) := ResolveOptional(ctx, log, i.value.teams, "Failed to get MS Teams Webhook URL");
      var (pagerduty, log) := ResolveOptional(ctx, log, i.value.pagerduty, "Failed to get PagerDuty Integration Key");
      var (opsgenie, log) := ResolveOptional(ctx, log, i.value.opsgenie, "Failed to get Opsgenie API Key");
      var (webhook, log) := ResolveWebhook(ctx, log, i.value.webhook);
      (Some(Integrations(slack, teams, pagerduty, opsgenie, webhook)), log)
  }

  function ResolveProject(ctx: Context, log: Log, p: Project): (Project, Log) {
    var (remote, log) := ResolveRemote(ctx, log, p.remote);
    var (keys, log) := ResolveKeys(ctx, log, p.apiKeys);
    var (integrations, log) := ResolveIntegrations(ctx, log, p.integrations);
    (Project(p.name, remote, keys, integrations), log)
  }

  function ResolveProjects(ctx: Context, log: Log, ps: seq<Project>): (r: (seq<Project>, Log))
    ensures |r.0| == |ps|
    decreases |ps|
  {
    if ps == [] then ([], log)
    else
      var (front, log) := ResolveProjects(ctx, log, ps[..|ps| - 1]);
      var (last, log) := ResolveProject(ctx, log, ps[|ps| - 1]);
      (front + [last], log)
  }

  function CapReplicas(spec: TelemetrySpec, log: Log): (TelemetrySpec, Log) {
    if spec.replicas > 1 && !spec.postgres then
      (spec.(replicas := 1), Fail(log, "Telemetry requires Postgres to run multiple replicas. Falling back to 1 replica."))
    else (spec, log)
  }

  function DefaultPorts(spec: TelemetrySpec): TelemetrySpec {
    var s := spec.service;
    var s := if s.port == 0 then s.(port := 8080) else s;
    var s := if !spec.grpcDisabled && s.grpcPort == 0 then s.(grpcPort := 4317) else s;
    var s := if (spec.tls.Some? || spec.httpDisabled) && s.httpsPort == 0 then s.(httpsPort := 8443) else s;
    spec.(service := s)
  }

  function OrDefault(size: nat, default: nat): nat { if size == 0 then default else size }

  function SlashTerminated(s: string): string {
    if s != "" && s[|s| - 1] == '/' then s else s + "/"
  }

  const S3_CACHE_ERROR: string := "ClickHouse S3 cache size must be less than storage size."

  function CheckS3(spec: TelemetrySpec, log: Log): (TelemetrySpec, Log) {
    if spec.clickhouse.s3.None? then (spec, log)
    else
      var s3 := spec.clickhouse.s3.value;
      var tooBig := OrDefault(s3.cacheSize, 10 * GIB) >= OrDefault(spec.clickhouse.storage.size, 100 * GIB);
      (spec.(clickhouse := spec.clickhouse.(s3 := Some(s3.(endpoint := SlashTerminated(s3.endpoint))))),
       if tooBig then Fail(log, S3_CACHE_ERROR) else log)
  }

  function CheckTls(ctx: Context, spec: TelemetrySpec, log: Log): (TelemetrySpec, Log) {
    if spec.tls.None? then (spec, log)
    else
      var cert := HasSecret(ctx.secrets, spec.tls.value.certSecret);
      var key := HasSecret(ctx.secrets, spec.tls.value.keySecret);
      var log := if cert then log else Fail(log, "Failed to get TLS Cert");
      var log := if key then log else Fail(log, "Failed to get TLS Key");
      (if cert && key then spec else spec.(tls := None), log)
  }

  function CheckAdminPassword(ctx: Context, spec: TelemetrySpec, log: Log): (TelemetrySpec, Log) {
    if spec.adminPassword.secret.None? || HasSecret(ctx.secrets, spec.adminPassword.secret.value) then (spec, log)
    else (spec.(adminPassword := Credential("", None)), Fail(log, "Failed to get Admin Password"))
  }

  /** The checks before the projects. */
  function Serving(ctx: Context, spec: TelemetrySpec): (TelemetrySpec, Log) {
    var (capped, log) := CapReplicas(spec, EmptyLog);
    var (s3, log) := CheckS3(DefaultPorts(capped), log);
    var (tls, log) := CheckTls(ctx, s3, log);
    CheckAdminPassword(ctx, tls, log)
  }

  /** Validation up to the point where the missing API key secrets are created. */
  function BeforeSecrets(ctx: Context, spec: TelemetrySpec): (TelemetrySpec, Log) {
    var (spec, log) := Serving(ctx, spec);
    var (projects, log) := ResolveProjects(ctx, log, spec.projects);
    (spec.(projects := projects), log)
  }

  function ResolveOidc(ctx: Context, log: Log, sso: Sso, oidc: Oidc): (Sso, Log) {
    var (secret, log) := Resolve(ctx, log, oidc.clientSecret, "Failed to get OIDC Client Secret");
    var sso := sso.(oidc := Some(oidc.(clientSecret := secret)));
    if oidc.issuerURL != "" && oidc.clientID != "" && secret.value != "" then (sso.(provider := "oidc"), log)
    else (sso.(enabled := false), Fail(log, "OIDC SSO requires issuerURL, clientID, and clientSecret"))
  }

  /** The metadata validated is the secret's content; what the configuration gets is the placeholder. */
  function SamlMetadata(ctx: Context, saml: Credential): string {
    match saml.secret
    case None => saml.value
    case Some(s) => if HasSecret(ctx.secrets, s) then ctx.secrets[s.name][s.key] else ""
  }

  function ResolveSaml(ctx: Context, log: Log, sso: Sso, saml: Credential): (Sso, Log) {
    var metadata := SamlMetadata(ctx, saml);
    var (resolved, log) := Resolve(ctx, log, saml, "Failed to get SAML Identity Provider Metadata");
    if metadata == "" then (sso.(saml := Some(resolved), enabled := false), log)
    else if !ctx.samlValid(metadata) then
      (sso.(saml := Some(resolved.(value := "")), enabled := false), Fail(log, "Invalid SAML Identity Provider Metadata"))
    else (sso.(saml := Some(resolved), provider := "saml"), log)
  }

  function ResolveSso(ctx: Context, log: Log, sso: Option<Sso>): (Option<Sso>, Log) {
    if sso.None? || !sso.value.enabled then (sso, log)
    else if sso.value.oidc.Some? then
      var (s, log) := ResolveOidc(ctx, log, sso.value, sso.value.oidc.value); (Some(s), log)
    else if sso.value.saml.Some? then
      var (s, log) := ResolveSaml(ctx, log, sso.value, sso.value.saml.value); (Some(s), log)
    else
      (Some(sso.value.(enabled := false)),
       Fail(log, "SSO is enabled but neither saml nor oidc configuration is provided"))
  }

  predicate KnownProvider(provider: string) {
    provider == "anthropic" || provider == "openai" || provider == "openai_compatible"
  }

  function Section(ai: Ai, provider: string): Option<Credential>
    requires KnownProvider(provider)
  {
    if provider == "anthropic" then ai.anthropic
    else if provider == "openai" then ai.openai
    else ai.openaiCompatible
  }

  function WithSection(ai: Ai, provider: string, c: Option<Credential>): Ai
    requires KnownProvider(provider)
  {
    if provider == "anthropic" then ai.(anthropic := c)
    else if provider == "openai" then ai.(openai := c)
    else ai.(openaiCompatible := c)
  }

  function SectionError(provider: string): string
    requires KnownProvider(provider)
  {
    if provider == "anthropic" then "Failed to get Anthropic API Key"
    else if provider == "openai" then "Failed to get OpenAI API Key"
    else "Failed to get API Key"
  }

  function ResolveAi(ctx: Context, log: Log, ai: Option<Ai>): (Option<Ai>, Log) {
    if ai.None? || ai.value.provider == "" then (ai, log)
    else if !KnownProvider(ai.value.provider) then
      (Some(ai.value.(provider := "")), Fail(log, "Unknown AI model provider"))
    else
      var a := ai.value;
      var (c, log) := ResolveOptional(ctx, log, Section(a, a.provider), SectionError(a.provider));
      (Some(WithSection(a, a.provider, c).(provider := if c.None? then "" else a.provider)), log)
  }

  function AfterSecrets(ctx: Context, spec: TelemetrySpec, log: Log): (TelemetrySpec, Log) {
    var (sso, log) := ResolveSso(ctx, log, spec.sso);
    var (ai, log) := ResolveAi(ctx, log, spec.ai);
    (spec.(sso := sso, ai := ai), log)
  }

  // The API key secrets.

  type Generator = (string, string) -> string

  function AddKeys(data: map<string, string>, name: string, keys: seq<string>, generate: Generator): map<string, string> {
    data + map k | k in keys && k !in data :: generate(name, k)
  }

  function DataOf(secrets: Secrets, name: string): map<string, string> {
    if name in secrets then secrets[name] else map[]
  }

  /** The secrets once every wanted key is there; map order plays no part. */
  function WithWanted(secrets: Secrets, wanted: map<string, seq<string>>, generate: Generator): Secrets {
    map n | n in secrets.Keys + wanted.Keys ::
      if n in wanted then AddKeys(DataOf(secrets, n), n, wanted[n], generate) else secrets[n]
  }

  /** The whole of validateTelemetry. */
  function Normalise(ctx: Context, spec: TelemetrySpec, generate: Generator): (TelemetrySpec, Log) {
    var (spec, log) := BeforeSecrets(ctx, spec);
    AfterSecrets(ctx.(secrets := WithWanted(ctx.secrets, log.apiKeySecrets, generate)), spec, log)
  }
}
