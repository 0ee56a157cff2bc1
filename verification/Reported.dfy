/** What validation reports: exactly which errors, in which order, and when none at all. */
module Reported {
  import opened Trees
  import opened ConfigEnvs
  import opened Spec
  import opened Validate
  import N = Normalised

  // The errors, section by section.

  function When(condition: bool, message: string): seq<string> { if condition then [message] else [] }

  /** A reference to a secret, or a key of one, that is not there. */
  predicate Lost(secrets: Secrets, c: Credential) { c.secret.Some? && !HasSecret(secrets, c.secret.value) }

  predicate LostIfAny(secrets: Secrets, c: Option<Credential>) { c.Some? && Lost(secrets, c.value) }

  /** No value in plain, and none in a secret either. */
  predicate Blank(secrets: Secrets, c: Credential) {
    c.value == "" && (c.secret.None? || !HasSecret(secrets, c.secret.value))
  }

  predicate Incomplete(secrets: Secrets, r: RemoteTelemetry) {
    r.url == "" || Blank(secrets, r.apiKey) || r.metricResolution == ""
  }

  function RemoteErrors(secrets: Secrets, remote: Option<RemoteTelemetry>): seq<string> {
    if remote.None? then []
    else
      When(Lost(secrets, remote.value.apiKey), "Failed to get Remote Telemetry API Key")
      + When(Incomplete(secrets, remote.value), "Remote Telemetry requires url, apiKey, and metricResolution.")
  }

  predicate WebhookLost(secrets: Secrets, w: Option<Webhook>) {
    w.Some? && w.value.basicAuth.Some? && Lost(secrets, w.value.basicAuth.value.password)
  }

  function IntegrationErrors(secrets: Secrets, integrations: Option<Integrations>): seq<string> {
    if integrations.None? then []
    else
      var i := integrations.value;
      When(LostIfAny(secrets, i.slack), "Failed to get Slack Token")
      + When(LostIfAny(secrets, i.teams), "Failed to get MS Teams Webhook URL")
      + When(LostIfAny(secrets, i.pagerduty), "Failed to get PagerDuty Integration Key")
      + When(LostIfAny(secrets, i.opsgenie), "Failed to get Opsgenie API Key")
      + When(WebhookLost(secrets, i.webhook), "Failed to get Webhook Basic Auth password")
  }

  function ProjectErrors(secrets: Secrets, p: Project): seq<string> {
    RemoteErrors(secrets, p.remote) + IntegrationErrors(secrets, p.integrations)
  }

  function ProjectsErrors(secrets: Secrets, ps: seq<Project>): seq<string> {
    if ps == [] then [] else ProjectErrors(secrets, ps[0]) + ProjectsErrors(secrets, ps[1..])
  }

  function ServingErrors(secrets: Secrets, spec: TelemetrySpec): seq<string> {
    When(spec.replicas > 1 && !spec.postgres,
         "Telemetry requires Postgres to run multiple replicas. Falling back to 1 replica.")
    + When(N.CacheTooBig(spec), "ClickHouse S3 cache size must be less than storage size.")
    + When(spec.tls.Some? && !HasSecret(secrets, spec.tls.value.certSecret), "Failed to get TLS Cert")
    + When(spec.tls.Some? && !HasSecret(secrets, spec.tls.value.keySecret), "Failed to get TLS Key")
    + When(Lost(secrets, spec.adminPassword), "Failed to get Admin Password")
  }

  function Metadata(secrets: Secrets, saml: Credential): string {
    if saml.secret.None? then saml.value
    else if HasSecret(secrets, saml.secret.value) then secrets[saml.secret.value.name][saml.secret.value.key]
    else ""
  }

  predicate OidcIncomplete(secrets: Secrets, oidc: Oidc) {
    oidc.issuerURL == "" || oidc.clientID == "" || Blank(secrets, oidc.clientSecret)
  }

  function SsoErrors(secrets: Secrets, samlValid: string -> bool, sso: Option<Sso>): seq<string> {
    if sso.None? || !sso.value.enabled then []
    else if sso.value.oidc.Some? then
      When(Lost(secrets, sso.value.oidc.value.clientSecret), "Failed to get OIDC Client Secret")
      + When(OidcIncomplete(secrets, sso.value.oidc.value), "OIDC SSO requires issuerURL, clientID, and clientSecret")
    else if sso.value.saml.Some? then
      var metadata := Metadata(secrets, sso.value.saml.value);
      When(Lost(secrets, sso.value.saml.value), "Failed to get SAML Identity Provider Metadata")
      + When(metadata != "" && !samlValid(metadata), "Invalid SAML Identity Provider Metadata")
    else ["SSO is enabled but neither saml nor oidc configuration is provided"]
  }

  function AiErrors(secrets: Secrets, ai: Option<Ai>): seq<string> {
    if ai.None? || ai.value.provider == "" then []
    else
      match ai.value.provider
      case "anthropic" => When(LostIfAny(secrets, ai.value.anthropic), "Failed to get Anthropic API Key")
      case "openai" => When(LostIfAny(secrets, ai.value.openai), "Failed to get OpenAI API Key")
      case "openai_compatible" => When(LostIfAny(secrets, ai.value.openaiCompatible), "Failed to get API Key")
      case _ => ["Unknown AI model provider"]
  }

  /** The secrets once those of the API keys are there. */
  function Completed(secrets: Secrets, spec: TelemetrySpec, generate: Generator): Secrets {
    WithWanted(secrets, N.WantProjects(map[], spec.projects), generate)
  }

  /** All of them; SSO and AI are looked up after the secrets of the API keys have been created. */
  function Errors(ctx: Context, spec: TelemetrySpec, generate: Generator): seq<string> {
    var later := Completed(ctx.secrets, spec, generate);
    ServingErrors(ctx.secrets, spec) + ProjectsErrors(ctx.secrets, spec.projects)
    + SsoErrors(later, ctx.samlValid, spec.sso) + AiErrors(later, spec.ai)
  }

  // Validation reports these.

  lemma ResolveReports(ctx: Context, log: Log, c: Credential, error: string)
    ensures var (r, l) := Resolve(ctx, log, c, error);
            && l.errors == log.errors + When(Lost(ctx.secrets, c), error)
            && (r.value == "" <==> Blank(ctx.secrets, c))
  {
  }

  lemma OptionalReports(ctx: Context, log: Log, c: Option<Credential>, error: string)
    ensures ResolveOptional(ctx, log, c, error).1.errors == log.errors + When(LostIfAny(ctx.secrets, c), error)
  {
    if c.Some? {
      ResolveReports(ctx, log, c.value, error);
    }
    hide Resolve, Lost;
  }

  lemma RemoteReports(ctx: Context, log: Log, remote: Option<RemoteTelemetry>)
    ensures ResolveRemote(ctx, log, remote).1.errors == log.errors + RemoteErrors(ctx.secrets, remote)
  {
    if remote.Some? {
      ResolveReports(ctx, log, remote.value.apiKey, "Failed to get Remote Telemetry API Key");
    }
    hide Resolve, Lost, Blank;
  }

  lemma {:induction false} KeysReport(ctx: Context, log: Log, keys: seq<Credential>)
    ensures ResolveKeys(ctx, log, keys).1.errors == log.errors
    decreases |keys|
  {
    if keys != [] {
      KeysReport(ctx, log, keys[..|keys| - 1]);
    }
  }

  lemma WebhookReports(ctx: Context, log: Log, webhook: Option<Webhook>)
    ensures ResolveWebhook(ctx, log, webhook).1.errors
            == log.errors + When(WebhookLost(ctx.secrets, webhook), "Failed to get Webhook Basic Auth password")
  {
    if webhook.Some? && webhook.value.basicAuth.Some? {
      ResolveReports(ctx, log, webhook.value.basicAuth.value.password, "Failed to get Webhook Basic Auth password");
    }
    hide Resolve, Lost;
  }

  lemma IntegrationsReport(ctx: Context, log: Log, integrations: Option<Integrations>)
    ensures ResolveIntegrations(ctx, log, integrations).1.errors == log.errors + IntegrationErrors(ctx.secrets, integrations)
  {
    hide ResolveOptional, ResolveWebhook, LostIfAny, WebhookLost, When;
    if integrations.Some? {
      var i := integrations.value;
      var l1 := ResolveOptional(ctx, log, i.slack, "Failed to get Slack Token").1;
      var l2 := ResolveOptional(ctx, l1, i.teams, "Failed to get MS Teams Webhook URL").1;
      var l3 := ResolveOptional(ctx, l2, i.pagerduty, "Failed to get PagerDuty Integration Key").1;
      var l4 := ResolveOptional(ctx, l3, i.opsgenie, "Failed to get Opsgenie API Key").1;
      OptionalReports(ctx, log, i.slack, "Failed to get Slack Token");
      OptionalReports(ctx, l1, i.teams, "Failed to get MS Teams Webhook URL");
      OptionalReports(ctx, l2, i.pagerduty, "Failed to get PagerDuty Integration Key");
      OptionalReports(ctx, l3, i.opsgenie, "Failed to get Opsgenie API Key");
      WebhookReports(ctx, l4, i.webhook);
    }
  }

  lemma ProjectReports(ctx: Context, log: Log, p: Project)
    ensures ResolveProject(ctx, log, p).1.errors == log.errors + ProjectErrors(ctx.secrets, p)
  {
    hide ResolveRemote, ResolveKeys, ResolveIntegrations, RemoteErrors, IntegrationErrors;
    var l1 := ResolveRemote(ctx, log, p.remote).1;
    var l2 := ResolveKeys(ctx, l1, p.apiKeys).1;
    RemoteReports(ctx, log, p.remote);
    KeysReport(ctx, l1, p.apiKeys);
    IntegrationsReport(ctx, l2, p.integrations);
  }

  lemma {:induction false} ErrorsSnoc(secrets: Secrets, ps: seq<Project>, p: Project)
    ensures ProjectsErrors(secrets, ps + [p]) == ProjectsErrors(secrets, ps) + ProjectErrors(secrets, p)
    decreases |ps|
  {
    hide ProjectErrors;
    if ps == [] {
      assert [p][1..] == [];
    } else {
      ErrorsSnoc(secrets, ps[1..], p);
      assert (ps + [p])[1..] == ps[1..] + [p];
    }
  }

  lemma {:induction false} ProjectsReport(ctx: Context, log: Log, ps: seq<Project>)
    ensures ResolveProjects(ctx, log, ps).1.errors == log.errors + ProjectsErrors(ctx.secrets, ps)
    decreases |ps|
  {
    hide ResolveProject, ProjectErrors;
    if ps != [] {
      var front, last := ps[..|ps| - 1], ps[|ps| - 1];
      ProjectsReport(ctx, log, front);
      ProjectReports(ctx, ResolveProjects(ctx, log, front).1, last);
      ErrorsSnoc(ctx.secrets, front, last);
      assert ps == front + [last];
    }
  }

  lemma FrontErrors(spec: TelemetrySpec)
    ensures N.Front(spec).1.errors
            == When(spec.replicas > 1 && !spec.postgres,
                    "Telemetry requires Postgres to run multiple replicas. Falling back to 1 replica.")
               + When(N.CacheTooBig(spec), "ClickHouse S3 cache size must be less than storage size.")
  {
    hide OrDefault, SlashTerminated;
    var (capped, log) := CapReplicas(spec, EmptyLog);
    assert DefaultPorts(capped).clickhouse == spec.clickhouse;
  }

  lemma LookupErrors(ctx: Context, spec: TelemetrySpec, log: Log)
    ensures var (s, l) := CheckTls(ctx, spec, log);
            && s.adminPassword == spec.adminPassword
            && l.errors == log.errors
                           + When(spec.tls.Some? && !HasSecret(ctx.secrets, spec.tls.value.certSecret), "Failed to get TLS Cert")
                           + When(spec.tls.Some? && !HasSecret(ctx.secrets, spec.tls.value.keySecret), "Failed to get TLS Key")
    ensures CheckAdminPassword(ctx, spec, log).1.errors
            == log.errors + When(Lost(ctx.secrets, spec.adminPassword), "Failed to get Admin Password")
  {
    hide HasSecret;
  }

  lemma ServingReports(ctx: Context, spec: TelemetrySpec)
    ensures Serving(ctx, spec).1.errors == ServingErrors(ctx.secrets, spec)
  {
    hide N.Front, CheckTls, CheckAdminPassword, N.ServingOk, When, HasSecret, Lost;
    var (s3, l3) := N.Front(spec);
    var (s4, l4) := CheckTls(ctx, s3, l3);
    N.FrontPart(spec);
    FrontErrors(spec);
    LookupErrors(ctx, s3, l3);
    LookupErrors(ctx, s4, l4);
    N.ServingInSteps(ctx, spec);
  }

  lemma OidcReports(ctx: Context, log: Log, sso: Sso, oidc: Oidc)
    ensures ResolveOidc(ctx, log, sso, oidc).1.errors
            == log.errors + When(Lost(ctx.secrets, oidc.clientSecret), "Failed to get OIDC Client Secret")
               + When(OidcIncomplete(ctx.secrets, oidc), "OIDC SSO requires issuerURL, clientID, and clientSecret")
  {
    ResolveReports(ctx, log, oidc.clientSecret, "Failed to get OIDC Client Secret");
    hide Resolve, Lost, Blank, HasSecret;
  }

  lemma SamlReports(ctx: Context, log: Log, sso: Sso, saml: Credential)
    ensures var metadata := Metadata(ctx.secrets, saml);
            ResolveSaml(ctx, log, sso, saml).1.errors
            == log.errors + When(Lost(ctx.secrets, saml), "Failed to get SAML Identity Provider Metadata")
               + When(metadata != "" && !ctx.samlValid(metadata), "Invalid SAML Identity Provider Metadata")
  {
    ResolveReports(ctx, log, saml, "Failed to get SAML Identity Provider Metadata");
    assert SamlMetadata(ctx, saml) == Metadata(ctx.secrets, saml);
    hide Resolve, Lost, Blank, HasSecret, SamlMetadata, Metadata;
  }

  lemma SsoReports(ctx: Context, log: Log, sso: Option<Sso>)
    ensures ResolveSso(ctx, log, sso).1.errors == log.errors + SsoErrors(ctx.secrets, ctx.samlValid, sso)
  {
    hide ResolveOidc, ResolveSaml, When, Lost, OidcIncomplete, Metadata;
    if sso.Some? && sso.value.enabled {
      if sso.value.oidc.Some? {
        OidcReports(ctx, log, sso.value, sso.value.oidc.value);
      } else if sso.value.saml.Some? {
        SamlReports(ctx, log, sso.value, sso.value.saml.value);
      }
    }
  }

  lemma AiReports(ctx: Context, log: Log, ai: Option<Ai>)
    ensures ResolveAi(ctx, log, ai).1.errors == log.errors + AiErrors(ctx.secrets, ai)
  {
    hide ResolveOptional, LostIfAny;
    if ai.Some? && KnownProvider(ai.value.provider) {
      var a := ai.value;
      OptionalReports(ctx, log, Section(a, a.provider), SectionError(a.provider));
    }
  }

  /** Validation reports exactly these errors, in this order. */
  lemma ErrorsAre(ctx: Context, spec: TelemetrySpec, generate: Generator)
    ensures Normalise(ctx, spec, generate).1.errors == Errors(ctx, spec, generate)
  {
    hide Serving, ResolveProjects, ResolveSso, ResolveAi, ServingErrors, ProjectsErrors, SsoErrors, AiErrors, N.ServingOk, N.SecretsOk;
    N.WantedDependsOnSpecOnly(ctx, spec, generate);
    N.BeforeSecretsOk(ctx, spec);
    ServingReports(ctx, spec);
    N.ServingPart(ctx, spec);
    ProjectsReport(ctx, Serving(ctx, spec).1, spec.projects);
    var (before, l1) := BeforeSecrets(ctx, spec);
    var ctx' := ctx.(secrets := WithWanted(ctx.secrets, l1.apiKeySecrets, generate));
    SsoReports(ctx', l1, before.sso);
    AiReports(ctx', ResolveSso(ctx', l1, before.sso).1, before.ai);
  }

  // When there are any.

  /** A project refers to it for an API key, so it is there once those exist. */
  predicate ApiKeyOf(spec: TelemetrySpec, s: Selector) {
    exists i, j | 0 <= i < |spec.projects| && 0 <= j < |spec.projects[i].apiKeys| :: spec.projects[i].apiKeys[j].secret == Some(s)
  }

  /** There now, or there in time for SSO and AI. */
  predicate Findable(secrets: Secrets, spec: TelemetrySpec, s: Selector) { HasSecret(secrets, s) || ApiKeyOf(spec, s) }

  predicate ProjectLacks(secrets: Secrets, p: Project) {
    || (p.remote.Some? && (Lost(secrets, p.remote.value.apiKey) || Incomplete(secrets, p.remote.value)))
    || (p.integrations.Some?
        && (|| LostIfAny(secrets, p.integrations.value.slack) || LostIfAny(secrets, p.integrations.value.teams)
            || LostIfAny(secrets, p.integrations.value.pagerduty) || LostIfAny(secrets, p.integrations.value.opsgenie)
            || WebhookLost(secrets, p.integrations.value.webhook)))
  }

  predicate NotFindable(secrets: Secrets, spec: TelemetrySpec, c: Credential) {
    c.secret.Some? && !Findable(secrets, spec, c.secret.value)
  }

  /** The metadata of a provider: in plain, in a secret, or in one that is generated as an API key. */
  function MetadataThen(secrets: Secrets, spec: TelemetrySpec, generate: Generator, saml: Credential): string {
    if saml.secret.None? then saml.value
    else
      var s := saml.secret.value;
      if HasSecret(secrets, s) then secrets[s.name][s.key] else if ApiKeyOf(spec, s) then generate(s.name, s.key) else ""
  }

  predicate SsoLacks(secrets: Secrets, samlValid: string -> bool, spec: TelemetrySpec, generate: Generator) {
    spec.sso.Some? && spec.sso.value.enabled &&
    if spec.sso.value.oidc.Some? then
      var oidc := spec.sso.value.oidc.value;
      || oidc.issuerURL == "" || oidc.clientID == ""
      || NotFindable(secrets, spec, oidc.clientSecret) || (oidc.clientSecret.secret.None? && oidc.clientSecret.value == "")
    else if spec.sso.value.saml.Some? then
      var metadata := MetadataThen(secrets, spec, generate, spec.sso.value.saml.value);
      NotFindable(secrets, spec, spec.sso.value.saml.value) || (metadata != "" && !samlValid(metadata))
    else true
  }

  predicate AiLacks(secrets: Secrets, spec: TelemetrySpec) {
    spec.ai.Some? && spec.ai.value.provider != "" &&
    match spec.ai.value.provider
    case "anthropic" => spec.ai.value.anthropic.Some? && NotFindable(secrets, spec, spec.ai.value.anthropic.value)
    case "openai" => spec.ai.value.openai.Some? && NotFindable(secrets, spec, spec.ai.value.openai.value)
    case "openai_compatible" =>
      spec.ai.value.openaiCompatible.Some? && NotFindable(secrets, spec, spec.ai.value.openaiCompatible.value)
    case _ => true
  }

  /** Something is wrong with the resource as it stands in front of these secrets. */
  predicate Misconfigured(secrets: Secrets, samlValid: string -> bool, spec: TelemetrySpec, generate: Generator) {
    || (spec.replicas > 1 && !spec.postgres)
    || N.CacheTooBig(spec)
    || (spec.tls.Some? && (!HasSecret(secrets, spec.tls.value.certSecret) || !HasSecret(secrets, spec.tls.value.keySecret)))
    || Lost(secrets, spec.adminPassword)
    || (exists p | p in spec.projects :: ProjectLacks(secrets, p))
    || SsoLacks(secrets, samlValid, spec, generate)
    || AiLacks(secrets, spec)
  }

  lemma {:induction false} WantKeysHas(wanted: map<string, seq<string>>, keys: seq<Credential>, s: Selector)
    ensures var w := N.WantKeys(wanted, keys);
            s.name in w && s.key in w[s.name]
            <==> (s.name in wanted && s.key in wanted[s.name]) || exists j | 0 <= j < |keys| :: keys[j].secret == Some(s)
    decreases |keys|
  {
    if keys != [] {
      var front, last := keys[..|keys| - 1], keys[|keys| - 1];
      WantKeysHas(wanted, front, s);
      assert forall j | 0 <= j < |front| :: front[j] == keys[j];
    }
  }

  predicate RefersTo(p: Project, s: Selector) { exists j | 0 <= j < |p.apiKeys| :: p.apiKeys[j].secret == Some(s) }

  lemma {:induction false} WantProjectsHas(ps: seq<Project>, s: Selector)
    ensures var w := N.WantProjects(map[], ps);
            s.name in w && s.key in w[s.name] <==> exists i | 0 <= i < |ps| :: RefersTo(ps[i], s)
    decreases |ps|
  {
    hide N.WantKeys;
    if ps != [] {
      var front := ps[..|ps| - 1];
      WantProjectsHas(front, s);
      WantKeysHas(N.WantProjects(map[], front), ps[|ps| - 1].apiKeys, s);
      assert forall i | 0 <= i < |front| :: front[i] == ps[i];
    }
  }

  /** What is in the secrets once those of the API keys are there. */
  lemma CompletedHas(secrets: Secrets, spec: TelemetrySpec, generate: Generator, s: Selector)
    ensures var later := Completed(secrets, spec, generate);
            && (HasSecret(later, s) <==> Findable(secrets, spec, s))
            && (Findable(secrets, spec, s) ==>
                  later[s.name][s.key] == if HasSecret(secrets, s) then secrets[s.name][s.key] else generate(s.name, s.key))
  {
    hide N.WantProjects;
    WantProjectsHas(spec.projects, s);
    ApiKeyIff(spec, s);
  }

  lemma ApiKeyIff(spec: TelemetrySpec, s: Selector)
    ensures ApiKeyOf(spec, s) <==> exists i | 0 <= i < |spec.projects| :: RefersTo(spec.projects[i], s)
  {
    if ApiKeyOf(spec, s) {
      var i, j :| 0 <= i < |spec.projects| && 0 <= j < |spec.projects[i].apiKeys| && spec.projects[i].apiKeys[j].secret == Some(s);
      assert RefersTo(spec.projects[i], s);
    }
  }

  lemma LostThen(secrets: Secrets, spec: TelemetrySpec, generate: Generator, c: Credential)
    ensures Lost(Completed(secrets, spec, generate), c) <==> NotFindable(secrets, spec, c)
    ensures Metadata(Completed(secrets, spec, generate), c) == MetadataThen(secrets, spec, generate, c)
  {
    hide Completed;
    if c.secret.Some? {
      CompletedHas(secrets, spec, generate, c.secret.value);
    }
    hide ApiKeyOf;
  }

  lemma ServingErrorsIff(secrets: Secrets, spec: TelemetrySpec)
    ensures ServingErrors(secrets, spec) != []
            <==> || (spec.replicas > 1 && !spec.postgres) || N.CacheTooBig(spec)
                 || (spec.tls.Some? && (!HasSecret(secrets, spec.tls.value.certSecret) || !HasSecret(secrets, spec.tls.value.keySecret)))
                 || Lost(secrets, spec.adminPassword)
  {
    hide N.CacheTooBig, HasSecret, Lost;
  }

  lemma {:induction false} ProjectsErrorsIff(secrets: Secrets, ps: seq<Project>)
    ensures ProjectsErrors(secrets, ps) != [] <==> exists p | p in ps :: ProjectLacks(secrets, p)
    decreases |ps|
  {
    hide ProjectErrors, ProjectLacks;
    if ps != [] {
      ProjectErrorsIff(secrets, ps[0]);
      ProjectsErrorsIff(secrets, ps[1..]);
      assert forall p :: p in ps <==> p == ps[0] || p in ps[1..];
    }
  }

  lemma ProjectErrorsIff(secrets: Secrets, p: Project)
    ensures ProjectErrors(secrets, p) != [] <==> ProjectLacks(secrets, p)
  {
    hide Lost, LostIfAny, WebhookLost, Incomplete;
  }

  lemma SsoErrorsIff(secrets: Secrets, samlValid: string -> bool, spec: TelemetrySpec, generate: Generator)
    ensures SsoErrors(Completed(secrets, spec, generate), samlValid, spec.sso) != [] <==> SsoLacks(secrets, samlValid, spec, generate)
  {
    if spec.sso.Some? && spec.sso.value.enabled {
      if spec.sso.value.oidc.Some? {
        var c := spec.sso.value.oidc.value.clientSecret;
        LostThen(secrets, spec, generate, c);
        hide Completed, NotFindable, Metadata, MetadataThen, HasSecret;
      } else if spec.sso.value.saml.Some? {
        LostThen(secrets, spec, generate, spec.sso.value.saml.value);
        hide Completed, Lost, NotFindable, Metadata, MetadataThen;
      }
    }
  }

  lemma AiErrorsIff(secrets: Secrets, spec: TelemetrySpec, generate: Generator)
    ensures AiErrors(Completed(secrets, spec, generate), spec.ai) != [] <==> AiLacks(secrets, spec)
  {
    hide Completed, Lost, NotFindable;
    if spec.ai.Some? {
      var a := spec.ai.value;
      if a.anthropic.Some? { LostThen(secrets, spec, generate, a.anthropic.value); }
      if a.openai.Some? { LostThen(secrets, spec, generate, a.openai.value); }
      if a.openaiCompatible.Some? { LostThen(secrets, spec, generate, a.openaiCompatible.value); }
    }
  }

  /** Validation reports something if and only if something is wrong, read off the resource and the secrets
      as they are before it. */
  lemma ReportsIff(ctx: Context, spec: TelemetrySpec, generate: Generator)
    ensures Normalise(ctx, spec, generate).1.errors != [] <==> Misconfigured(ctx.secrets, ctx.samlValid, spec, generate)
  {
    hide Normalise, ServingErrors, ProjectsErrors, SsoErrors, AiErrors, N.CacheTooBig, Lost, ProjectLacks, SsoLacks, AiLacks,
         HasSecret, Completed;
    ErrorsAre(ctx, spec, generate);
    ServingErrorsIff(ctx.secrets, spec);
    ProjectsErrorsIff(ctx.secrets, spec.projects);
    SsoErrorsIff(ctx.secrets, ctx.samlValid, spec, generate);
    AiErrorsIff(ctx.secrets, spec, generate);
  }
}
