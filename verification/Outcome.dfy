/** What validation makes of the parts of a spec that are not projects: every field, from the input. */
module Outcome {
  import opened Trees
  import opened Spec
  import opened Validate
  import opened Normalised
  import R = Reported

  predicate EndsInSlash(s: string) { s != "" && s[|s| - 1] == '/' }

  function S3Then(s3: Option<S3>): Option<S3> {
    if s3.None? || EndsInSlash(s3.value.endpoint) then s3 else Some(s3.value.(endpoint := s3.value.endpoint + "/"))
  }

  function ReplicasThen(spec: TelemetrySpec): int { if spec.postgres || spec.replicas < 1 then spec.replicas else 1 }

  /** What the server itself is configured with. */
  predicate ServingSettled(secrets: Secrets, before: TelemetrySpec, after: TelemetrySpec) {
    && after.replicas == ReplicasThen(before)
    && after.service == ServiceThen(before)
    && (after.tls.Some? <==>
          before.tls.Some? && HasSecret(secrets, before.tls.value.certSecret) && HasSecret(secrets, before.tls.value.keySecret))
    && (after.tls.Some? ==> after.tls == before.tls)
    && after.adminPassword == (if R.Lost(secrets, before.adminPassword) then Credential("", None) else before.adminPassword)
    && after.clickhouse == before.clickhouse.(s3 := S3Then(before.clickhouse.s3))
  }

  function Valued(ctx: Context, c: Credential): Credential { Credential(Final(ctx, c), None) }

  predicate SsoSettled(ctx: Context, before: Option<Sso>, after: Option<Sso>) {
    if before.None? || !before.value.enabled then after == before
    else
      after.Some?
      && var (b, a) := (before.value, after.value);
         if b.oidc.Some? then
           var complete := !R.OidcIncomplete(ctx.secrets, b.oidc.value);
           && a.oidc == Some(b.oidc.value.(clientSecret := Valued(ctx, b.oidc.value.clientSecret)))
           && a.enabled == complete && a.provider == (if complete then "oidc" else b.provider) && a.saml == b.saml
         else if b.saml.Some? then
           var metadata := R.Metadata(ctx.secrets, b.saml.value);
           var good := metadata != "" && ctx.samlValid(metadata);
           && a.saml == Some(if metadata == "" || good then Valued(ctx, b.saml.value) else Credential("", None))
           && a.enabled == good && a.provider == (if good then "saml" else b.provider) && a.oidc == b.oidc
         else a == b.(enabled := false)
  }

  /** A section that has no key in the end is no section. */
  function SectionThen(ctx: Context, c: Option<Credential>): Option<Credential> {
    if c.None? || R.Blank(ctx.secrets, c.value) then None else Some(Valued(ctx, c.value))
  }

  function AiThen(ctx: Context, ai: Ai): Ai {
    match ai.provider
    case "anthropic" =>
      var c := SectionThen(ctx, ai.anthropic); ai.(anthropic := c, provider := if c.None? then "" else "anthropic")
    case "openai" =>
      var c := SectionThen(ctx, ai.openai); ai.(openai := c, provider := if c.None? then "" else "openai")
    case "openai_compatible" =>
      var c := SectionThen(ctx, ai.openaiCompatible);
      ai.(openaiCompatible := c, provider := if c.None? then "" else "openai_compatible")
    case _ => ai.(provider := "")
  }

  predicate AiSettled(ctx: Context, before: Option<Ai>, after: Option<Ai>) {
    if before.None? then after.None? else after == Some(AiThen(ctx, before.value))
  }

  lemma ResolveIs(ctx: Context, log: Log, c: Credential, error: string)
    ensures Resolve(ctx, log, c, error).0 == Valued(ctx, c)
    ensures Final(ctx, c) == "" <==> R.Blank(ctx.secrets, c)
  {
  }

  lemma OidcIs(ctx: Context, log: Log, sso: Sso, oidc: Oidc)
    requires sso.enabled && sso.oidc == Some(oidc)
    ensures SsoSettled(ctx, Some(sso), Some(ResolveOidc(ctx, log, sso, oidc).0))
  {
    ResolveIs(ctx, log, oidc.clientSecret, "Failed to get OIDC Client Secret");
    hide Resolve, Final, R.Blank;
  }

  lemma SamlIs(ctx: Context, log: Log, sso: Sso, saml: Credential)
    requires sso.enabled && sso.oidc.None? && sso.saml == Some(saml)
    ensures SsoSettled(ctx, Some(sso), Some(ResolveSaml(ctx, log, sso, saml).0))
  {
    ResolveIs(ctx, log, saml, "Failed to get SAML Identity Provider Metadata");
    assert SamlMetadata(ctx, saml) == R.Metadata(ctx.secrets, saml);
    hide Resolve, Final, R.Blank, SamlMetadata, R.Metadata;
  }

  lemma SsoIs(ctx: Context, log: Log, sso: Option<Sso>)
    ensures SsoSettled(ctx, sso, ResolveSso(ctx, log, sso).0)
  {
    hide ResolveOidc, ResolveSaml;
    if sso.Some? && sso.value.enabled {
      if sso.value.oidc.Some? {
        OidcIs(ctx, log, sso.value, sso.value.oidc.value);
      } else if sso.value.saml.Some? {
        SamlIs(ctx, log, sso.value, sso.value.saml.value);
      }
    }
  }

  lemma OptionalIs(ctx: Context, log: Log, c: Option<Credential>, error: string)
    ensures ResolveOptional(ctx, log, c, error).0 == SectionThen(ctx, c)
  {
    if c.Some? {
      ResolveIs(ctx, log, c.value, error);
    }
    hide Resolve, Final, R.Blank;
  }

  lemma AiIs(ctx: Context, log: Log, ai: Option<Ai>)
    ensures AiSettled(ctx, ai, ResolveAi(ctx, log, ai).0)
  {
    hide ResolveOptional, SectionThen;
    if ai.Some? && KnownProvider(ai.value.provider) {
      var a := ai.value;
      OptionalIs(ctx, log, Section(a, a.provider), SectionError(a.provider));
    }
  }

  lemma ReplicasAre(spec: TelemetrySpec, log: Log)
    ensures CapReplicas(spec, log).0 == spec.(replicas := ReplicasThen(spec))
  {
    hide CapReplicas;
    CapReplicasPart(spec, log);
  }

  lemma PortsAre(spec: TelemetrySpec)
    ensures DefaultPorts(spec) == spec.(service := ServiceThen(spec))
  {
  }

  lemma S3Is(spec: TelemetrySpec, log: Log)
    ensures CheckS3(spec, log).0 == spec.(clickhouse := spec.clickhouse.(s3 := S3Then(spec.clickhouse.s3)))
  {
    hide Fail, OrDefault;
  }

  lemma FrontIs(spec: TelemetrySpec)
    ensures Front(spec).0 == spec.(replicas := ReplicasThen(spec), service := ServiceThen(spec),
                                   clickhouse := spec.clickhouse.(s3 := S3Then(spec.clickhouse.s3)))
  {
    hide CapReplicas, CheckS3, S3Then, ReplicasThen;
    var (capped, log) := CapReplicas(spec, EmptyLog);
    ReplicasAre(spec, EmptyLog);
    PortsAre(capped);
    hide DefaultPorts;
    S3Is(DefaultPorts(capped), log);
  }

  lemma LookupsAre(ctx: Context, spec: TelemetrySpec, log: Log)
    ensures CheckTls(ctx, spec, log).0
            == if spec.tls.Some? && HasSecret(ctx.secrets, spec.tls.value.certSecret) && HasSecret(ctx.secrets, spec.tls.value.keySecret)
               then spec else spec.(tls := None)
    ensures CheckAdminPassword(ctx, spec, log).0
            == if R.Lost(ctx.secrets, spec.adminPassword) then spec.(adminPassword := Credential("", None)) else spec
  {
    hide HasSecret, Fail;
  }

  lemma ServingIs(ctx: Context, spec: TelemetrySpec)
    ensures ServingSettled(ctx.secrets, spec, Serving(ctx, spec).0)
  {
    hide Front, HasSecret, ServiceThen, S3Then, ReplicasThen, R.Lost, CheckTls, CheckAdminPassword;
    var (s3, l3) := Front(spec);
    var (s4, l4) := CheckTls(ctx, s3, l3);
    FrontIs(spec);
    LookupsAre(ctx, s3, l3);
    LookupsAre(ctx, s4, l4);
    ServingInSteps(ctx, spec);
    hide Serving;
  }

  /** All of it: the server's own section against the secrets found, SSO and AI against those and the ones
      created for API keys. With PlaceholdersAreBound for the projects this is the whole of the spec. */
  lemma NormalisedIs(ctx: Context, spec: TelemetrySpec, generate: Generator)
    ensures var after := Normalise(ctx, spec, generate).0;
            var ctx' := ctx.(secrets := R.Completed(ctx.secrets, spec, generate));
            && ServingSettled(ctx.secrets, spec, after)
            && SsoSettled(ctx', spec.sso, after.sso)
            && AiSettled(ctx', spec.ai, after.ai)
            && SameShape(spec, after)
  {
    hide Serving, ResolveProjects, ResolveSso, ResolveAi, ServingOk, SecretsOk, SsoSettled, AiSettled, SameShape;
    WantedDependsOnSpecOnly(ctx, spec, generate);
    BeforeSecretsOk(ctx, spec);
    ServingPart(ctx, spec);
    ServingIs(ctx, spec);
    ShapeDependsOnSpecOnly(ctx, spec, generate);
    var (before, l1) := BeforeSecrets(ctx, spec);
    var ctx' := ctx.(secrets := WithWanted(ctx.secrets, l1.apiKeySecrets, generate));
    SsoIs(ctx', l1, before.sso);
    AiIs(ctx', ResolveSso(ctx', l1, before.sso).1, before.ai);
  }
}
