/** What validation guarantees about the spec it leaves, for every input spec and secret store. */
module Normalised {
  import opened Trees
  import opened ConfigEnvs
  import opened Spec
  import opened Validate
  import opened Topology

  // Well-formedness.

  predicate Usable(c: Credential) { c.secret.None? && c.value != "" }

  predicate UsableIfAny(c: Option<Credential>) { c.Some? ==> Usable(c.value) }

  predicate WebhookOk(w: Webhook) {
    && w.url != ""
    && (w.basicAuth.Some? ==> w.basicAuth.value.username != "" && Usable(w.basicAuth.value.password))
    && (w.incidents ==> w.incidentTemplate != "")
    && (w.deployments ==> w.deploymentTemplate != "")
  }

  predicate IntegrationsOk(i: Integrations) {
    && UsableIfAny(i.slack) && UsableIfAny(i.teams) && UsableIfAny(i.pagerduty) && UsableIfAny(i.opsgenie)
    && (i.webhook.Some? ==> WebhookOk(i.webhook.value))
  }

  predicate ProjectOk(p: Project) {
    && (p.remote.Some? ==> p.remote.value.url != "" && Usable(p.remote.value.apiKey) && p.remote.value.metricResolution != "")
    && (forall k | k in p.apiKeys :: k.secret.None?)
    && (p.integrations.Some? ==> IntegrationsOk(p.integrations.value))
  }

  predicate SsoOk(s: Sso) {
    s.enabled ==>
      if s.oidc.Some? then
        s.provider == "oidc" && s.oidc.value.issuerURL != "" && s.oidc.value.clientID != "" && Usable(s.oidc.value.clientSecret)
      else s.provider == "saml" && s.saml.Some? && Usable(s.saml.value)
  }

  predicate AiOk(a: Ai) {
    a.provider != "" ==> KnownProvider(a.provider) && Section(a, a.provider).Some? && Usable(Section(a, a.provider).value)
  }

  predicate ServingOk(spec: TelemetrySpec) {
    && (spec.replicas > 1 ==> spec.postgres)
    && spec.service.port != 0
    && (!spec.grpcDisabled ==> spec.service.grpcPort != 0)
    && (spec.tls.Some? || spec.httpDisabled ==> spec.service.httpsPort != 0)
    && (spec.clickhouse.s3.Some? ==> var e := spec.clickhouse.s3.value.endpoint; e != "" && e[|e| - 1] == '/')
  }

  predicate SpecOk(spec: TelemetrySpec, secrets: Secrets) {
    && ServingOk(spec) && SecretsOk(spec, secrets)
    && (forall p | p in spec.projects :: ProjectOk(p))
    && (spec.sso.Some? ==> SsoOk(spec.sso.value))
    && (spec.ai.Some? ==> AiOk(spec.ai.value))
  }

  // Slots: where each secret reference of the input ends up.

  predicate Grows(a: Log, b: Log) {
    && a.envs.Keys <= b.envs.Keys && a.errors <= b.errors
    && (forall n | n in a.apiKeySecrets :: n in b.apiKeySecrets && a.apiKeySecrets[n] <= b.apiKeySecrets[n])
  }

  predicate Sound(ctx: Context, a: Log, b: Log) {
    Grows(a, b) && (Consistent(ctx.crc, a.envs) ==> Consistent(ctx.crc, b.envs))
  }

  /** The value a slot ends with: the placeholder of a secret that is there, else the plain value. */
  function Final(ctx: Context, c: Credential): string {
    if c.secret.Some? && HasSecret(ctx.secrets, c.secret.value) then Placeholder(ctx.crc, c.secret.value) else c.value
  }

  /** ... and that placeholder's variable is bound. */
  predicate Bound(ctx: Context, log: Log, c: Credential) {
    c.secret.Some? && HasSecret(ctx.secrets, c.secret.value) ==> EnvName(ctx.crc, c.secret.value) in log.envs
  }

  predicate Slot(ctx: Context, log: Log, before: Credential, after: Credential) {
    after == Credential(Final(ctx, before), None) && Bound(ctx, log, before)
  }

  predicate OptionalSlot(ctx: Context, log: Log, before: Option<Credential>, after: Option<Credential>) {
    match before
    case None => after.None?
    case Some(c) =>
      && Bound(ctx, log, c)
      && after == if Final(ctx, c) == "" then None else Some(Credential(Final(ctx, c), None))
  }

  /** An API key given by reference is bound and its secret requested, whether or not it exists yet. */
  predicate KeySlot(ctx: Context, log: Log, before: Credential, after: Credential) {
    match before.secret
    case None => after == before
    case Some(s) =>
      && after == Credential(Placeholder(ctx.crc, s), None)
      && EnvName(ctx.crc, s) in log.envs
      && s.name in log.apiKeySecrets && s.key in log.apiKeySecrets[s.name]
  }

  predicate WebhookSlots(ctx: Context, log: Log, before: Option<Webhook>, after: Option<Webhook>) {
    (after.Some? ==>
       && before.Some? && after.value.url == before.value.url
       && (after.value.incidents <==> before.value.incidents && before.value.incidentTemplate != "")
       && (after.value.deployments <==> before.value.deployments && before.value.deploymentTemplate != "")
       && after.value.incidentTemplate == before.value.incidentTemplate
       && after.value.deploymentTemplate == before.value.deploymentTemplate) &&
    (before.Some? ==>
      (after.Some? <==> before.value.url != "")
      && (before.value.basicAuth.None? && after.Some? ==> after.value.basicAuth.None?)
      && (before.value.basicAuth.Some? ==>
            var auth := before.value.basicAuth.value;
            && Bound(ctx, log, auth.password)
            && (after.Some? ==>
                  (after.value.basicAuth.Some? <==> auth.username != "" && Final(ctx, auth.password) != "")
                  && (after.value.basicAuth.Some? ==>
                        after.value.basicAuth.value.username == auth.username
                        && Slot(ctx, log, auth.password, after.value.basicAuth.value.password)))))
  }

  predicate IntegrationSlots(ctx: Context, log: Log, before: Option<Integrations>, after: Option<Integrations>) {
    && (before.Some? <==> after.Some?)
    && (before.Some? ==>
          && OptionalSlot(ctx, log, before.value.slack, after.value.slack)
          && OptionalSlot(ctx, log, before.value.teams, after.value.teams)
          && OptionalSlot(ctx, log, before.value.pagerduty, after.value.pagerduty)
          && OptionalSlot(ctx, log, before.value.opsgenie, after.value.opsgenie)
          && WebhookSlots(ctx, log, before.value.webhook, after.value.webhook))
  }

  predicate RemoteSlot(ctx: Context, log: Log, before: Option<RemoteTelemetry>, after: Option<RemoteTelemetry>) {
    match before
    case None => after.None?
    case Some(r) =>
      && Bound(ctx, log, r.apiKey)
      && (after.Some? <==> r.url != "" && Final(ctx, r.apiKey) != "" && r.metricResolution != "")
      && (after.Some? ==> after.value.url == r.url && after.value.metricResolution == r.metricResolution
                          && Slot(ctx, log, r.apiKey, after.value.apiKey))
  }

  predicate KeySlots(ctx: Context, log: Log, before: seq<Credential>, after: seq<Credential>) {
    |before| == |after| && forall i | 0 <= i < |before| :: KeySlot(ctx, log, before[i], after[i])
  }

  predicate ProjectSlots(ctx: Context, log: Log, before: Project, after: Project) {
    && before.name == after.name
    && RemoteSlot(ctx, log, before.remote, after.remote)
    && KeySlots(ctx, log, before.apiKeys, after.apiKeys)
    && IntegrationSlots(ctx, log, before.integrations, after.integrations)
  }

  lemma KeySlotsGrow(ctx: Context, a: Log, b: Log, before: seq<Credential>, after: seq<Credential>)
    requires KeySlots(ctx, a, before, after) && Grows(a, b)
    ensures KeySlots(ctx, b, before, after)
  {
    forall i | 0 <= i < |before| ensures KeySlot(ctx, b, before[i], after[i]) {
      assert KeySlot(ctx, a, before[i], after[i]);
    }
  }

  lemma KeySlotsHaveNoSecret(ctx: Context, log: Log, before: seq<Credential>, after: seq<Credential>)
    requires KeySlots(ctx, log, before, after)
    ensures forall k | k in after :: k.secret.None?
  {
    forall i | 0 <= i < |after| ensures after[i].secret.None? {
      assert KeySlot(ctx, log, before[i], after[i]);
    }
  }

  lemma RemoteSlotGrows(ctx: Context, a: Log, b: Log, before: Option<RemoteTelemetry>, after: Option<RemoteTelemetry>)
    requires RemoteSlot(ctx, a, before, after) && Grows(a, b)
    ensures RemoteSlot(ctx, b, before, after)
  {
  }

  lemma IntegrationSlotsGrow(ctx: Context, a: Log, b: Log, before: Option<Integrations>, after: Option<Integrations>)
    requires IntegrationSlots(ctx, a, before, after) && Grows(a, b)
    ensures IntegrationSlots(ctx, b, before, after)
  {
  }

  lemma ProjectSlotsGrow(ctx: Context, a: Log, b: Log, before: Project, after: Project)
    requires ProjectSlots(ctx, a, before, after) && Grows(a, b)
    ensures ProjectSlots(ctx, b, before, after)
  {
    KeySlotsGrow(ctx, a, b, before.apiKeys, after.apiKeys);
    RemoteSlotGrows(ctx, a, b, before.remote, after.remote);
    IntegrationSlotsGrow(ctx, a, b, before.integrations, after.integrations);
  }

  lemma ResolveOptionalSlot(ctx: Context, log: Log, c: Option<Credential>, error: string)
    ensures var (r, l) := ResolveOptional(ctx, log, c, error);
            OptionalSlot(ctx, l, c, r) && Sound(ctx, log, l) && UsableIfAny(r) && l.apiKeySecrets == log.apiKeySecrets
  {
  }

  lemma ResolveRemoteSlot(ctx: Context, log: Log, remote: Option<RemoteTelemetry>)
    ensures var (r, l) := ResolveRemote(ctx, log, remote);
            RemoteSlot(ctx, l, remote, r) && Sound(ctx, log, l) && l.apiKeySecrets == log.apiKeySecrets
  {
    if remote.Some? {
      ResolveSlot(ctx, log, remote.value.apiKey, "Failed to get Remote Telemetry API Key");
      hide Resolve;
    }
  }

  lemma ResolveWebhookSlots(ctx: Context, log: Log, webhook: Option<Webhook>)
    ensures var (r, l) := ResolveWebhook(ctx, log, webhook);
            && WebhookSlots(ctx, l, webhook, r) && Sound(ctx, log, l) && (r.Some? ==> WebhookOk(r.value))
            && l.apiKeySecrets == log.apiKeySecrets
  {
    if webhook.Some? && webhook.value.basicAuth.Some? {
      ResolveSlot(ctx, log, webhook.value.basicAuth.value.password, "Failed to get Webhook Basic Auth password");
    }
    hide Resolve, Slot;
  }

  lemma SoundTrans(ctx: Context, a: Log, b: Log, c: Log)
    requires Sound(ctx, a, b) && Sound(ctx, b, c)
    ensures Sound(ctx, a, c)
  {
    forall n | n in a.apiKeySecrets ensures n in c.apiKeySecrets && a.apiKeySecrets[n] <= c.apiKeySecrets[n] {
      assert n in b.apiKeySecrets;
    }
  }

  lemma ResolveKeySlot(ctx: Context, log: Log, k: Credential)
    ensures var (r, l) := ResolveKey(ctx, log, k);
            KeySlot(ctx, l, k, r) && Sound(ctx, log, l)
  {
    if k.secret.Some? {
      var s := k.secret.value;
      var w := Want(log, s);
      assert w.apiKeySecrets[s.name][|w.apiKeySecrets[s.name]| - 1] == s.key;
    }
  }

  lemma {:induction false} ResolveKeysSlots(ctx: Context, log: Log, keys: seq<Credential>)
    ensures var (r, l) := ResolveKeys(ctx, log, keys);
            KeySlots(ctx, l, keys, r) && Sound(ctx, log, l)
    decreases |keys|
  {
    if keys != [] {
      var front, last := keys[..|keys| - 1], keys[|keys| - 1];
      var (r1, l1) := ResolveKeys(ctx, log, front);
      var (r2, l2) := ResolveKey(ctx, l1, last);
      ResolveKeysSlots(ctx, log, front);
      ResolveKeySlot(ctx, l1, last);
      SoundTrans(ctx, log, l1, l2);
      forall i | 0 <= i < |keys| ensures KeySlot(ctx, l2, keys[i], (r1 + [r2])[i]) {
        if i < |front| {
          assert KeySlot(ctx, l1, front[i], r1[i]);
        }
      }
    }
  }

  lemma OptionalSlotGrows(ctx: Context, a: Log, b: Log, before: Option<Credential>, after: Option<Credential>)
    requires OptionalSlot(ctx, a, before, after) && Grows(a, b)
    ensures OptionalSlot(ctx, b, before, after)
  {
  }

  lemma ResolveIntegrationSlots(ctx: Context, log: Log, i: Option<Integrations>)
    ensures var (r, l) := ResolveIntegrations(ctx, log, i);
            && IntegrationSlots(ctx, l, i, r) && Sound(ctx, log, l) && (r.Some? ==> IntegrationsOk(r.value))
            && l.apiKeySecrets == log.apiKeySecrets
  {
    if i.Some? {
      var v := i.value;
      var (slack, l1) := ResolveOptional(ctx, log, v.slack, "Failed to get Slack Token");
      var (teams, l2) := ResolveOptional(ctx, l1, v.teams, "Failed to get MS Teams Webhook URL");
      var (pagerduty, l3) := ResolveOptional(ctx, l2, v.pagerduty, "Failed to get PagerDuty Integration Key");
      var (opsgenie, l4) := ResolveOptional(ctx, l3, v.opsgenie, "Failed to get Opsgenie API Key");
      var (webhook, l5) := ResolveWebhook(ctx, l4, v.webhook);
      ResolveOptionalSlot(ctx, log, v.slack, "Failed to get Slack Token");
      ResolveOptionalSlot(ctx, l1, v.teams, "Failed to get MS Teams Webhook URL");
      ResolveOptionalSlot(ctx, l2, v.pagerduty, "Failed to get PagerDuty Integration Key");
      ResolveOptionalSlot(ctx, l3, v.opsgenie, "Failed to get Opsgenie API Key");
      ResolveWebhookSlots(ctx, l4, v.webhook);
      SoundTrans(ctx, l3, l4, l5);
      SoundTrans(ctx, l2, l3, l5);
      SoundTrans(ctx, l1, l2, l5);
      SoundTrans(ctx, log, l1, l5);
      OptionalSlotGrows(ctx, l1, l5, v.slack, slack);
      OptionalSlotGrows(ctx, l2, l5, v.teams, teams);
      OptionalSlotGrows(ctx, l3, l5, v.pagerduty, pagerduty);
      OptionalSlotGrows(ctx, l4, l5, v.opsgenie, opsgenie);
    }
  }

  lemma RemoteOk(ctx: Context, log: Log, remote: Option<RemoteTelemetry>)
    ensures var r := ResolveRemote(ctx, log, remote).0;
            r.Some? ==> r.value.url != "" && Usable(r.value.apiKey) && r.value.metricResolution != ""
  {
    ResolveRemoteSlot(ctx, log, remote);
  }

  lemma ResolveProjectSlots(ctx: Context, log: Log, p: Project)
    ensures var (r, l) := ResolveProject(ctx, log, p);
            ProjectSlots(ctx, l, p, r) && Sound(ctx, log, l) && ProjectOk(r)
  {
    var (remote, l1) := ResolveRemote(ctx, log, p.remote);
    var (keys, l2) := ResolveKeys(ctx, l1, p.apiKeys);
    var (integrations, l3) := ResolveIntegrations(ctx, l2, p.integrations);
    ResolveRemoteSlot(ctx, log, p.remote);
    ResolveKeysSlots(ctx, l1, p.apiKeys);
    ResolveIntegrationSlots(ctx, l2, p.integrations);
    SoundTrans(ctx, l1, l2, l3);
    SoundTrans(ctx, log, l1, l3);
    RemoteSlotGrows(ctx, l1, l3, p.remote, remote);
    KeySlotsGrow(ctx, l2, l3, p.apiKeys, keys);
    KeySlotsHaveNoSecret(ctx, l3, p.apiKeys, keys);
    RemoteOk(ctx, log, p.remote);
  }

  lemma {:induction false} ResolveProjectsSlots(ctx: Context, log: Log, ps: seq<Project>)
    ensures var (r, l) := ResolveProjects(ctx, log, ps);
            && Sound(ctx, log, l)
            && (forall i | 0 <= i < |ps| :: ProjectSlots(ctx, l, ps[i], r[i]))
            && (forall i | 0 <= i < |ps| :: ProjectOk(r[i]))
    decreases |ps|
  {
    if ps != [] {
      var front, last := ps[..|ps| - 1], ps[|ps| - 1];
      var (r1, l1) := ResolveProjects(ctx, log, front);
      var (r2, l2) := ResolveProject(ctx, l1, last);
      ResolveProjectsSlots(ctx, log, front);
      ResolveProjectSlots(ctx, l1, last);
      SoundTrans(ctx, log, l1, l2);
      forall i | 0 <= i < |front| ensures ProjectSlots(ctx, l2, ps[i], r1[i]) {
        assert ProjectSlots(ctx, l1, front[i], r1[i]);
        ProjectSlotsGrow(ctx, l1, l2, ps[i], r1[i]);
      }
    }
  }

  /** Validation leaves a well-formed spec, for every input spec and secret store: no project keeps a
      secret reference, and whatever survives has all the fields it requires. */
  lemma NormalisedIsWellFormed(ctx: Context, spec: TelemetrySpec, generate: Generator)
    ensures SpecOk(Normalise(ctx, spec, generate).0, ctx.secrets)
  {
    hide BeforeSecrets, ResolveSso, ResolveAi, HasSecret;
    var (before, log) := BeforeSecrets(ctx, spec);
    BeforeSecretsOk(ctx, spec);
    var ctx' := ctx.(secrets := WithWanted(ctx.secrets, log.apiKeySecrets, generate));
    ResolveSsoOk(ctx', log, before.sso);
    ResolveAiOk(ctx', ResolveSso(ctx', log, before.sso).1, before.ai);
  }

  lemma CapReplicasPart(spec: TelemetrySpec, log: Log)
    ensures var (s, l) := CapReplicas(spec, log);
            && s == spec.(replicas := if spec.replicas > 1 && !spec.postgres then 1 else spec.replicas)
            && (s.replicas > 1 ==> s.postgres)
            && l == log.(errors := l.errors)
  {
    hide Fail;
    FailsErrors(log, "Telemetry requires Postgres to run multiple replicas. Falling back to 1 replica.");
  }

  lemma FailsErrors(log: Log, message: string)
    ensures var l := Fail(log, message); l == log.(errors := l.errors)
  {
  }

  lemma DefaultPortsPart(spec: TelemetrySpec)
    ensures var s := DefaultPorts(spec);
            && s == spec.(service := s.service)
            && s.service.port != 0
            && (!spec.grpcDisabled ==> s.service.grpcPort != 0)
            && (spec.tls.Some? || spec.httpDisabled ==> s.service.httpsPort != 0)
  {
  }

  lemma CheckS3Part(spec: TelemetrySpec, log: Log)
    ensures var (s, l) := CheckS3(spec, log);
            && s == spec.(clickhouse := spec.clickhouse.(s3 := s.clickhouse.s3))
            && (s.clickhouse.s3.Some? ==>
                  var e := s.clickhouse.s3.value.endpoint; e != "" && e[|e| - 1] == '/')
            && l == log.(errors := l.errors)
  {
  }

  lemma CheckTlsPart(ctx: Context, spec: TelemetrySpec, log: Log)
    ensures var (s, l) := CheckTls(ctx, spec, log);
            && s == spec.(tls := s.tls)
            && (s.tls.Some? ==> s.tls == spec.tls
                                && HasSecret(ctx.secrets, s.tls.value.certSecret) && HasSecret(ctx.secrets, s.tls.value.keySecret))
            && l == log.(errors := l.errors)
  {
  }

  lemma CheckAdminPasswordPart(ctx: Context, spec: TelemetrySpec, log: Log)
    ensures var (s, l) := CheckAdminPassword(ctx, spec, log);
            && s == spec.(adminPassword := s.adminPassword)
            && (s.adminPassword.secret.Some? ==> HasSecret(ctx.secrets, s.adminPassword.secret.value))
            && l == log.(errors := l.errors)
  {
  }

  /** Port numbers that are not given, where they are needed. */
  function ServiceThen(spec: TelemetrySpec): Service {
    var s := spec.service;
    s.(port := if s.port == 0 then 8080 else s.port,
       grpcPort := if s.grpcPort == 0 && !spec.grpcDisabled then 4317 else s.grpcPort,
       httpsPort := if s.httpsPort == 0 && (spec.tls.Some? || spec.httpDisabled) then 8443 else s.httpsPort)
  }

  /** The fields that decide which objects a pass writes, and how many. */
  predicate SameShape(before: TelemetrySpec, after: TelemetrySpec) {
    && after.replicas == (if before.replicas > 1 && !before.postgres then 1 else before.replicas)
    && after.agentsOnly == before.agentsOnly && after.ingress == before.ingress && after.storage == before.storage
    && after.externalClickhouse == before.externalClickhouse && after.externalPrometheus == before.externalPrometheus
    && after.storeMetricsInClickhouse == before.storeMetricsInClickhouse
    && after.prometheusStorage == before.prometheusStorage
    && after.clickhouse.(s3 := None) == before.clickhouse.(s3 := None)
    && after.httpDisabled == before.httpDisabled && after.grpcDisabled == before.grpcDisabled
    && after.service == ServiceThen(before)
  }

  predicate SecretsOk(spec: TelemetrySpec, secrets: Secrets) {
    && (spec.tls.Some? ==> HasSecret(secrets, spec.tls.value.certSecret) && HasSecret(secrets, spec.tls.value.keySecret))
    && (spec.adminPassword.secret.Some? ==> HasSecret(secrets, spec.adminPassword.secret.value))
  }

  /** ... before anything is looked up in a secret. */
  function Front(spec: TelemetrySpec): (TelemetrySpec, Log) {
    var (capped, log) := CapReplicas(spec, EmptyLog);
    CheckS3(DefaultPorts(capped), log)
  }

  lemma FrontPart(spec: TelemetrySpec)
    ensures var (s, l) := Front(spec);
            && SameShape(spec, s) && ServingOk(s)
            && s.tls == spec.tls && s.adminPassword == spec.adminPassword
            && s.projects == spec.projects && s.sso == spec.sso && s.ai == spec.ai
            && l.envs == map[] && l.apiKeySecrets == map[]
  {
    hide CapReplicas, CheckS3, OrDefault;
    var (s1, l1) := CapReplicas(spec, EmptyLog);
    CapReplicasPart(spec, EmptyLog);
    DefaultPortsPart(s1);
    CheckS3Part(DefaultPorts(s1), l1);
  }

  lemma ServingPart(ctx: Context, spec: TelemetrySpec)
    ensures var (s, l) := Serving(ctx, spec);
            && ServingOk(s) && SecretsOk(s, ctx.secrets) && SameShape(spec, s)
            && s.projects == spec.projects && s.sso == spec.sso && s.ai == spec.ai
            && l.envs == map[] && l.apiKeySecrets == map[]
  {
    var (s3, l3) := Front(spec);
    FrontPart(spec);
    var (s4, l4) := CheckTls(ctx, s3, l3);
    CheckTlsPart(ctx, s3, l3);
    CheckAdminPasswordPart(ctx, s4, l4);
  }

  lemma BeforeSecretsOk(ctx: Context, spec: TelemetrySpec)
    ensures var (s, log) := BeforeSecrets(ctx, spec);
            && ServingOk(s) && SecretsOk(s, ctx.secrets) && SameShape(spec, s)
            && s.sso == spec.sso && s.ai == spec.ai
            && (forall p | p in s.projects :: ProjectOk(p))
            && |s.projects| == |spec.projects|
            && (forall i | 0 <= i < |spec.projects| :: ProjectSlots(ctx, log, spec.projects[i], s.projects[i]))
            && Consistent(ctx.crc, log.envs)
  {
    ServingPart(ctx, spec);
    ResolveProjectsSlots(ctx, Serving(ctx, spec).1, spec.projects);
  }

  lemma ResolveSlot(ctx: Context, log: Log, c: Credential, error: string)
    ensures var (r, l) := Resolve(ctx, log, c, error);
            Slot(ctx, l, c, r) && Sound(ctx, log, l) && l.apiKeySecrets == log.apiKeySecrets
  {
  }

  lemma ResolveOidcOk(ctx: Context, log: Log, sso: Sso, oidc: Oidc)
    requires sso.enabled && sso.oidc == Some(oidc)
    ensures var (s, l) := ResolveOidc(ctx, log, sso, oidc);
            Sound(ctx, log, l) && SsoOk(s) && SsoSlots(ctx, l, sso, s) && l.apiKeySecrets == log.apiKeySecrets
  {
    ResolveSlot(ctx, log, oidc.clientSecret, "Failed to get OIDC Client Secret");
    hide Resolve;
  }

  lemma ResolveSamlOk(ctx: Context, log: Log, sso: Sso, saml: Credential)
    requires sso.enabled && sso.oidc.None? && sso.saml == Some(saml)
    ensures var (s, l) := ResolveSaml(ctx, log, sso, saml);
            Sound(ctx, log, l) && SsoOk(s) && SsoSlots(ctx, l, sso, s) && l.apiKeySecrets == log.apiKeySecrets
  {
    ResolveSlot(ctx, log, saml, "Failed to get SAML Identity Provider Metadata");
  }

  lemma ResolveSsoOk(ctx: Context, log: Log, sso: Option<Sso>)
    ensures var (s, l) := ResolveSso(ctx, log, sso);
            && Sound(ctx, log, l) && (s.Some? ==> SsoOk(s.value)) && l.apiKeySecrets == log.apiKeySecrets
            && (sso.Some? && sso.value.enabled ==> s.Some? && SsoSlots(ctx, l, sso.value, s.value))
  {
    if sso.Some? && sso.value.enabled {
      if sso.value.oidc.Some? {
        ResolveOidcOk(ctx, log, sso.value, sso.value.oidc.value);
      } else if sso.value.saml.Some? {
        ResolveSamlOk(ctx, log, sso.value, sso.value.saml.value);
      }
    }
  }

  predicate SsoSlots(ctx: Context, log: Log, before: Sso, after: Sso) {
    if before.oidc.Some? then
      after.oidc.Some? && Slot(ctx, log, before.oidc.value.clientSecret, after.oidc.value.clientSecret)
    else before.saml.Some? ==>
      && after.saml.Some? && after.saml.value.secret.None? && Bound(ctx, log, before.saml.value)
      && (after.saml.value.value == Final(ctx, before.saml.value) || after.saml.value.value == "")
      && (after.enabled <==>
            SamlMetadata(ctx, before.saml.value) != "" && ctx.samlValid(SamlMetadata(ctx, before.saml.value)))
  }

  lemma ResolveAiOk(ctx: Context, log: Log, ai: Option<Ai>)
    ensures var (a, l) := ResolveAi(ctx, log, ai);
            && Sound(ctx, log, l) && (a.Some? ==> AiOk(a.value)) && l.apiKeySecrets == log.apiKeySecrets
            && (ai.Some? ==> a.Some? && AiSlots(ctx, l, ai.value, a.value))
  {
    if ai.Some? && KnownProvider(ai.value.provider) {
      var a := ai.value;
      ResolveOptionalSlot(ctx, log, Section(a, a.provider), SectionError(a.provider));
    }
  }

  predicate AiSlots(ctx: Context, log: Log, before: Ai, after: Ai) {
    KnownProvider(before.provider) ==>
      OptionalSlot(ctx, log, Section(before, before.provider), Section(after, before.provider))
  }

  /** Every secret reference of the input ends in its own slot, as a placeholder whose variable is
      bound when the pass builds the environment. */
  lemma PlaceholdersAreBound(ctx: Context, spec: TelemetrySpec, generate: Generator)
    ensures var (after, log) := Normalise(ctx, spec, generate);
            var ctx' := ctx.(secrets := WithWanted(ctx.secrets, log.apiKeySecrets, generate));
            && |after.projects| == |spec.projects|
            && (forall i | 0 <= i < |spec.projects| :: ProjectSlots(ctx, log, spec.projects[i], after.projects[i]))
            && (spec.sso.Some? && spec.sso.value.enabled ==>
                  after.sso.Some? && SsoSlots(ctx', log, spec.sso.value, after.sso.value))
            && (spec.ai.Some? ==> after.ai.Some? && AiSlots(ctx', log, spec.ai.value, after.ai.value))
            && Consistent(ctx.crc, log.envs)
  {
    hide BeforeSecrets, ResolveSso, ResolveAi, ProjectSlots, SsoSlots, AiSlots, ServingOk, SecretsOk, ProjectOk;
    var (before, l1) := BeforeSecrets(ctx, spec);
    BeforeSecretsOk(ctx, spec);
    var ctx' := ctx.(secrets := WithWanted(ctx.secrets, l1.apiKeySecrets, generate));
    var (sso, l2) := ResolveSso(ctx', l1, before.sso);
    var (ai, l3) := ResolveAi(ctx', l2, before.ai);
    ResolveSsoOk(ctx', l1, before.sso);
    ResolveAiOk(ctx', l2, before.ai);
    SoundTrans(ctx', l1, l2, l3);
    forall i | 0 <= i < |spec.projects| ensures ProjectSlots(ctx, l3, spec.projects[i], before.projects[i]) {
      ProjectSlotsGrow(ctx, l1, l3, spec.projects[i], before.projects[i]);
    }
    if spec.sso.Some? && spec.sso.value.enabled {
      SsoSlotsGrow(ctx', l2, l3, spec.sso.value, sso.value);
    }
  }

  lemma SsoSlotsGrow(ctx: Context, a: Log, b: Log, before: Sso, after: Sso)
    requires SsoSlots(ctx, a, before, after) && Grows(a, b)
    ensures SsoSlots(ctx, b, before, after)
  {
  }

  lemma KeySlotOf(ctx: Context, spec: TelemetrySpec, generate: Generator, i: nat, j: nat)
    requires i < |spec.projects| && j < |spec.projects[i].apiKeys|
    ensures var (after, log) := Normalise(ctx, spec, generate);
            && |after.projects| == |spec.projects|
            && |after.projects[i].apiKeys| == |spec.projects[i].apiKeys|
            && KeySlot(ctx, log, spec.projects[i].apiKeys[j], after.projects[i].apiKeys[j])
  {
    hide Normalise, KeySlot;
    PlaceholdersAreBound(ctx, spec, generate);
    var (after, log) := Normalise(ctx, spec, generate);
    assert ProjectSlots(ctx, log, spec.projects[i], after.projects[i]);
  }

  // The API key secrets.

  /** After validation every key a project refers to exists, and nothing that existed has changed,
      however often a key is referred to and in whatever order the secrets are handled. */
  lemma ApiKeySecretsCovered(ctx: Context, spec: TelemetrySpec, generate: Generator, i: nat, j: nat)
    requires i < |spec.projects| && j < |spec.projects[i].apiKeys|
    requires spec.projects[i].apiKeys[j].secret.Some?
    ensures var log := Normalise(ctx, spec, generate).1;
            var after := WithWanted(ctx.secrets, log.apiKeySecrets, generate);
            && HasSecret(after, spec.projects[i].apiKeys[j].secret.value)
            && (forall s: Selector | HasSecret(ctx.secrets, s) ::
                  HasSecret(after, s) && after[s.name][s.key] == ctx.secrets[s.name][s.key])
  {
    PlaceholdersAreBound(ctx, spec, generate);
    var (after, log) := Normalise(ctx, spec, generate);
    assert ProjectSlots(ctx, log, spec.projects[i], after.projects[i]);
    assert KeySlot(ctx, log, spec.projects[i].apiKeys[j], after.projects[i].apiKeys[j]);
  }

  function WantKeys(wanted: map<string, seq<string>>, keys: seq<Credential>): map<string, seq<string>>
    decreases |keys|
  {
    if keys == [] then wanted
    else
      var w := WantKeys(wanted, keys[..|keys| - 1]);
      match keys[|keys| - 1].secret
      case None => w
      case Some(s) => w[s.name := (if s.name in w then w[s.name] else []) + [s.key]]
  }

  function WantProjects(wanted: map<string, seq<string>>, ps: seq<Project>): map<string, seq<string>>
    decreases |ps|
  {
    if ps == [] then wanted else WantKeys(WantProjects(wanted, ps[..|ps| - 1]), ps[|ps| - 1].apiKeys)
  }

  lemma {:induction false} ResolveKeysWants(ctx: Context, log: Log, keys: seq<Credential>)
    ensures ResolveKeys(ctx, log, keys).1.apiKeySecrets == WantKeys(log.apiKeySecrets, keys)
    decreases |keys|
  {
    if keys != [] {
      ResolveKeysWants(ctx, log, keys[..|keys| - 1]);
    }
  }

  lemma {:induction false} ResolveProjectsWants(ctx: Context, log: Log, ps: seq<Project>)
    ensures ResolveProjects(ctx, log, ps).1.apiKeySecrets == WantProjects(log.apiKeySecrets, ps)
    decreases |ps|
  {
    if ps != [] {
      var l1 := ResolveProjects(ctx, log, ps[..|ps| - 1]).1;
      ResolveProjectsWants(ctx, log, ps[..|ps| - 1]);
      ResolveProjectWants(ctx, l1, ps[|ps| - 1]);
    }
  }

  lemma ResolveProjectWants(ctx: Context, log: Log, p: Project)
    ensures ResolveProject(ctx, log, p).1.apiKeySecrets == WantKeys(log.apiKeySecrets, p.apiKeys)
  {
    var (remote, l1) := ResolveRemote(ctx, log, p.remote);
    ResolveRemoteSlot(ctx, log, p.remote);
    var (keys, l2) := ResolveKeys(ctx, l1, p.apiKeys);
    ResolveKeysWants(ctx, l1, p.apiKeys);
    ResolveIntegrationSlots(ctx, l2, p.integrations);
  }

  lemma {:induction false} WantKeysHaveKeys(wanted: map<string, seq<string>>, keys: seq<Credential>)
    requires forall n | n in wanted :: wanted[n] != []
    ensures forall n | n in WantKeys(wanted, keys) :: WantKeys(wanted, keys)[n] != []
    decreases |keys|
  {
    if keys != [] {
      WantKeysHaveKeys(wanted, keys[..|keys| - 1]);
    }
  }

  lemma {:induction false} WantedHaveKeys(ps: seq<Project>)
    ensures forall n | n in WantProjects(map[], ps) :: WantProjects(map[], ps)[n] != []
    decreases |ps|
  {
    if ps != [] {
      WantedHaveKeys(ps[..|ps| - 1]);
      WantKeysHaveKeys(WantProjects(map[], ps[..|ps| - 1]), ps[|ps| - 1].apiKeys);
    }
  }

  /** Which secrets are to be created depends on the spec alone, not on what resolves. */
  lemma WantedDependsOnSpecOnly(ctx: Context, spec: TelemetrySpec, generate: Generator)
    ensures BeforeSecrets(ctx, spec).1.apiKeySecrets == WantProjects(map[], spec.projects)
    ensures Normalise(ctx, spec, generate).1.apiKeySecrets == WantProjects(map[], spec.projects)
  {
    ServingPart(ctx, spec);
    ResolveProjectsWants(ctx, Serving(ctx, spec).1, spec.projects);
    var (before, l1) := BeforeSecrets(ctx, spec);
    var ctx' := ctx.(secrets := WithWanted(ctx.secrets, l1.apiKeySecrets, generate));
    ResolveSsoOk(ctx', l1, before.sso);
    ResolveAiOk(ctx', ResolveSso(ctx', l1, before.sso).1, before.ai);
  }

  /** What the names and numbers of objects hang on comes from the spec alone. */
  lemma ShapeDependsOnSpecOnly(ctx: Context, spec: TelemetrySpec, generate: Generator)
    ensures SameShape(spec, Normalise(ctx, spec, generate).0)
  {
    BeforeSecretsOk(ctx, spec);
  }

  // The S3 cache.

  function CacheSize(s3: S3): nat { OrDefault(s3.cacheSize, 10 * GIB) }

  predicate CacheTooBig(spec: TelemetrySpec) {
    spec.clickhouse.s3.Some?
    && CacheSize(spec.clickhouse.s3.value) >= OrDefault(spec.clickhouse.storage.size, 100 * GIB)
  }

  predicate SameCache(before: TelemetrySpec, after: TelemetrySpec) {
    && (before.clickhouse.s3.Some? <==> after.clickhouse.s3.Some?)
    && (after.clickhouse.s3.Some? ==> after.clickhouse.s3.value.cacheSize == before.clickhouse.s3.value.cacheSize)
  }

  lemma CheckS3Reports(spec: TelemetrySpec, log: Log)
    ensures var (s, l) := CheckS3(spec, log);
            SameCache(spec, s) && (CacheTooBig(spec) ==> S3_CACHE_ERROR in l.errors)
  {
    if CacheTooBig(spec) {
      var l := CheckS3(spec, log).1;
      assert l.errors[|log.errors|] == S3_CACHE_ERROR;
    }
  }

  lemma FrontReports(spec: TelemetrySpec)
    ensures var (s, l) := Front(spec);
            SameCache(spec, s) && (CacheTooBig(spec) ==> S3_CACHE_ERROR in l.errors)
  {
    hide CapReplicas, CheckS3;
    var (s1, l1) := CapReplicas(spec, EmptyLog);
    CapReplicasPart(spec, EmptyLog);
    DefaultPortsPart(s1);
    assert DefaultPorts(s1).clickhouse == spec.clickhouse;
    CheckS3Reports(DefaultPorts(s1), l1);
  }

  lemma LookupsKeepErrors(ctx: Context, spec: TelemetrySpec, log: Log, error: string)
    requires error in log.errors
    ensures error in CheckTls(ctx, spec, log).1.errors
    ensures error in CheckAdminPassword(ctx, spec, log).1.errors
  {
    hide HasSecret;
  }

  lemma ServingReports(ctx: Context, spec: TelemetrySpec)
    ensures var (s, l) := Serving(ctx, spec);
            SameCache(spec, s) && (CacheTooBig(spec) ==> S3_CACHE_ERROR in l.errors)
  {
    hide Front, CheckTls, CheckAdminPassword, ServingOk, SecretsOk;
    FrontReports(spec);
    var (s3, l3) := Front(spec);
    var (s4, l4) := CheckTls(ctx, s3, l3);
    CheckTlsPart(ctx, s3, l3);
    CheckAdminPasswordPart(ctx, s4, l4);
    ServingInSteps(ctx, spec);
    if CacheTooBig(spec) {
      LookupsKeepErrors(ctx, s3, l3, S3_CACHE_ERROR);
      LookupsKeepErrors(ctx, s4, l4, S3_CACHE_ERROR);
    }
  }

  lemma ServingInSteps(ctx: Context, spec: TelemetrySpec)
    ensures var (s3, l3) := Front(spec);
            var (s4, l4) := CheckTls(ctx, s3, l3);
            Serving(ctx, spec) == CheckAdminPassword(ctx, s4, l4)
  {
  }

  lemma BeforeSecretsReports(ctx: Context, spec: TelemetrySpec)
    ensures var (s, l) := BeforeSecrets(ctx, spec);
            SameCache(spec, s) && (CacheTooBig(spec) ==> S3_CACHE_ERROR in l.errors)
  {
    ServingReports(ctx, spec);
    ServingPart(ctx, spec);
    ResolveProjectsSlots(ctx, Serving(ctx, spec).1, spec.projects);
  }

  lemma AfterSecretsReports(ctx: Context, spec: TelemetrySpec, log: Log)
    ensures var (s, l) := AfterSecrets(ctx, spec, log);
            s.clickhouse == spec.clickhouse && log.errors <= l.errors
  {
    ResolveSsoOk(ctx, log, spec.sso);
    ResolveAiOk(ctx, ResolveSso(ctx, log, spec.sso).1, spec.ai);
  }

  /** A cache that would not fit its volume is always reported. */
  lemma CacheSizeIsChecked(ctx: Context, spec: TelemetrySpec, generate: Generator)
    ensures var (after, log) := Normalise(ctx, spec, generate);
            SameCache(spec, after) && (CacheTooBig(spec) ==> S3_CACHE_ERROR in log.errors)
  {
    var (before, log) := BeforeSecrets(ctx, spec);
    BeforeSecretsReports(ctx, spec);
    AfterSecretsReports(ctx.(secrets := WithWanted(ctx.secrets, log.apiKeySecrets, generate)), before, log);
  }
}
