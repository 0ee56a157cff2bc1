/** Which references a pass puts behind variables, and when each of them finds itself there again. */
module References {
  import opened Trees
  import opened ConfigEnvs
  import opened Spec
  import opened Validate
  import N = Normalised

  /** A reference is found if its secret has the key, or is to be given it. */
  predicate Found(secrets: Secrets, wanted: map<string, seq<string>>, s: Selector) {
    HasSecret(secrets, s) || (s.name in wanted && s.key in wanted[s.name])
  }

  // Read off the spec.

  function RefOf(ctx: Context, c: Credential): set<Selector> {
    if c.secret.Some? && HasSecret(ctx.secrets, c.secret.value) then {c.secret.value} else {}
  }

  function OptionalRef(ctx: Context, c: Option<Credential>): set<Selector> {
    if c.None? then {} else RefOf(ctx, c.value)
  }

  /** API keys are bound whether or not their secret exists yet. */
  function KeyRefs(keys: seq<Credential>): set<Selector> {
    set k | k in keys && k.secret.Some? :: k.secret.value
  }

  function WebhookRefs(ctx: Context, w: Option<Webhook>): set<Selector> {
    if w.None? || w.value.basicAuth.None? then {} else RefOf(ctx, w.value.basicAuth.value.password)
  }

  function IntegrationRefs(ctx: Context, i: Option<Integrations>): set<Selector> {
    if i.None? then {}
    else
      OptionalRef(ctx, i.value.slack) + OptionalRef(ctx, i.value.teams) + OptionalRef(ctx, i.value.pagerduty)
      + OptionalRef(ctx, i.value.opsgenie) + WebhookRefs(ctx, i.value.webhook)
  }

  function RemoteRefs(ctx: Context, r: Option<RemoteTelemetry>): set<Selector> {
    if r.None? then {} else RefOf(ctx, r.value.apiKey)
  }

  function ProjectRefs(ctx: Context, p: Project): set<Selector> {
    RemoteRefs(ctx, p.remote) + KeyRefs(p.apiKeys) + IntegrationRefs(ctx, p.integrations)
  }

  function ProjectsRefs(ctx: Context, ps: seq<Project>): set<Selector> {
    set p, s | p in ps && s in ProjectRefs(ctx, p) :: s
  }

  function SsoRefs(ctx: Context, sso: Option<Sso>): set<Selector> {
    if sso.None? || !sso.value.enabled then {}
    else if sso.value.oidc.Some? then RefOf(ctx, sso.value.oidc.value.clientSecret)
    else OptionalRef(ctx, sso.value.saml)
  }

  function AiRefs(ctx: Context, ai: Option<Ai>): set<Selector> {
    if ai.None? || !KnownProvider(ai.value.provider) then {}
    else OptionalRef(ctx, Section(ai.value, ai.value.provider))
  }

  /** The secrets as the later lookups of a pass find them; what is generated does not matter here. */
  function Later(ctx: Context, spec: TelemetrySpec): Context {
    ctx.(secrets := WithWanted(ctx.secrets, N.WantProjects(map[], spec.projects), (name, key) => ""))
  }

  /** Every API key reference, and every other reference that validation looks up and finds. */
  function BoundRefs(ctx: Context, spec: TelemetrySpec): set<Selector> {
    ProjectsRefs(ctx, spec.projects) + SsoRefs(Later(ctx, spec), spec.sso) + AiRefs(Later(ctx, spec), spec.ai)
  }

  // Made by validation.

  /** From a to b, exactly the given references were bound. */
  predicate Binds(crc: Checksum, a: Bindings, refs: set<Selector>, b: Bindings) {
    && (Consistent(crc, a) ==> Consistent(crc, b))
    && a.Keys <= b.Keys
    && (forall n | n in b :: b[n] in refs || (n in a && b[n] == a[n]))
    && (forall s | s in refs :: EnvName(crc, s) in b)
  }

  lemma BindsTrans(crc: Checksum, a: Bindings, r: set<Selector>, b: Bindings, r': set<Selector>, c: Bindings)
    requires Binds(crc, a, r, b) && Binds(crc, b, r', c)
    ensures Binds(crc, a, r + r', c)
  {
    hide EnvName;
  }

  lemma ResolveBinds(ctx: Context, log: Log, c: Credential, error: string)
    ensures Binds(ctx.crc, log.envs, RefOf(ctx, c), Resolve(ctx, log, c, error).1.envs)
  {
  }

  lemma ResolveOptionalBinds(ctx: Context, log: Log, c: Option<Credential>, error: string)
    ensures Binds(ctx.crc, log.envs, OptionalRef(ctx, c), ResolveOptional(ctx, log, c, error).1.envs)
  {
    if c.Some? {
      ResolveBinds(ctx, log, c.value, error);
    }
  }

  lemma ResolveRemoteBinds(ctx: Context, log: Log, r: Option<RemoteTelemetry>)
    ensures Binds(ctx.crc, log.envs, RemoteRefs(ctx, r), ResolveRemote(ctx, log, r).1.envs)
  {
    if r.Some? {
      ResolveBinds(ctx, log, r.value.apiKey, "Failed to get Remote Telemetry API Key");
      hide Resolve;
    }
  }

  lemma ResolveKeyBinds(ctx: Context, log: Log, k: Credential)
    ensures Binds(ctx.crc, log.envs, KeyRefs([k]), ResolveKey(ctx, log, k).1.envs)
  {
    assert KeyRefs([k]) == if k.secret.Some? then {k.secret.value} else {} by {
      assert k in [k];
    }
  }

  lemma KeyRefsAppend(a: seq<Credential>, b: seq<Credential>)
    ensures KeyRefs(a + b) == KeyRefs(a) + KeyRefs(b)
  {
    assert forall k | k in a + b :: k in a || k in b;
    assert forall k | k in a || k in b :: k in a + b;
  }

  lemma NoKeysBind(crc: Checksum, envs: Bindings)
    ensures Binds(crc, envs, KeyRefs([]), envs)
  {
  }

  lemma {:induction false} ResolveKeysBind(ctx: Context, log: Log, keys: seq<Credential>)
    ensures Binds(ctx.crc, log.envs, KeyRefs(keys), ResolveKeys(ctx, log, keys).1.envs)
    decreases |keys|
  {
    hide Binds, ResolveKey, KeyRefs;
    if keys == [] {
      NoKeysBind(ctx.crc, log.envs);
    } else {
      var front, last := keys[..|keys| - 1], keys[|keys| - 1];
      var l := ResolveKeys(ctx, log, front).1;
      ResolveKeysBind(ctx, log, front);
      ResolveKeyBinds(ctx, l, last);
      BindsTrans(ctx.crc, log.envs, KeyRefs(front), l.envs, KeyRefs([last]), ResolveKey(ctx, l, last).1.envs);
      KeyRefsAppend(front, [last]);
      assert keys == front + [last];
    }
  }

  lemma ResolveWebhookBinds(ctx: Context, log: Log, w: Option<Webhook>)
    ensures Binds(ctx.crc, log.envs, WebhookRefs(ctx, w), ResolveWebhook(ctx, log, w).1.envs)
  {
    if w.Some? && w.value.basicAuth.Some? {
      ResolveBinds(ctx, log, w.value.basicAuth.value.password, "Failed to get Webhook Basic Auth password");
      hide Resolve;
    }
  }

  lemma ResolveIntegrationsBind(ctx: Context, log: Log, i: Option<Integrations>)
    ensures Binds(ctx.crc, log.envs, IntegrationRefs(ctx, i), ResolveIntegrations(ctx, log, i).1.envs)
  {
    hide ResolveOptional, ResolveWebhook, OptionalRef, WebhookRefs;
    if i.Some? {
      var v := i.value;
      var l1 := ResolveOptional(ctx, log, v.slack, "Failed to get Slack Token").1;
      var l2 := ResolveOptional(ctx, l1, v.teams, "Failed to get MS Teams Webhook URL").1;
      var l3 := ResolveOptional(ctx, l2, v.pagerduty, "Failed to get PagerDuty Integration Key").1;
      var l4 := ResolveOptional(ctx, l3, v.opsgenie, "Failed to get Opsgenie API Key").1;
      var l5 := ResolveWebhook(ctx, l4, v.webhook).1;
      ResolveOptionalBinds(ctx, log, v.slack, "Failed to get Slack Token");
      ResolveOptionalBinds(ctx, l1, v.teams, "Failed to get MS Teams Webhook URL");
      ResolveOptionalBinds(ctx, l2, v.pagerduty, "Failed to get PagerDuty Integration Key");
      ResolveOptionalBinds(ctx, l3, v.opsgenie, "Failed to get Opsgenie API Key");
      ResolveWebhookBinds(ctx, l4, v.webhook);
      var refs := OptionalRef(ctx, v.slack);
      BindsTrans(ctx.crc, log.envs, refs, l1.envs, OptionalRef(ctx, v.teams), l2.envs);
      refs := refs + OptionalRef(ctx, v.teams);
      BindsTrans(ctx.crc, log.envs, refs, l2.envs, OptionalRef(ctx, v.pagerduty), l3.envs);
      refs := refs + OptionalRef(ctx, v.pagerduty);
      BindsTrans(ctx.crc, log.envs, refs, l3.envs, OptionalRef(ctx, v.opsgenie), l4.envs);
      refs := refs + OptionalRef(ctx, v.opsgenie);
      BindsTrans(ctx.crc, log.envs, refs, l4.envs, WebhookRefs(ctx, v.webhook), l5.envs);
      hide Binds;
    }
  }

  lemma ResolveProjectBinds(ctx: Context, log: Log, p: Project)
    ensures Binds(ctx.crc, log.envs, ProjectRefs(ctx, p), ResolveProject(ctx, log, p).1.envs)
  {
    hide ResolveRemote, ResolveKeys, ResolveIntegrations, RemoteRefs, KeyRefs, IntegrationRefs, Binds;
    var l1 := ResolveRemote(ctx, log, p.remote).1;
    var l2 := ResolveKeys(ctx, l1, p.apiKeys).1;
    var l3 := ResolveIntegrations(ctx, l2, p.integrations).1;
    ResolveRemoteBinds(ctx, log, p.remote);
    ResolveKeysBind(ctx, l1, p.apiKeys);
    ResolveIntegrationsBind(ctx, l2, p.integrations);
    BindsTrans(ctx.crc, log.envs, RemoteRefs(ctx, p.remote), l1.envs, KeyRefs(p.apiKeys), l2.envs);
    BindsTrans(ctx.crc, log.envs, RemoteRefs(ctx, p.remote) + KeyRefs(p.apiKeys), l2.envs,
               IntegrationRefs(ctx, p.integrations), l3.envs);
  }

  lemma ProjectsRefsSnoc(ctx: Context, ps: seq<Project>, p: Project)
    ensures ProjectsRefs(ctx, ps + [p]) == ProjectsRefs(ctx, ps) + ProjectRefs(ctx, p)
  {
    hide ProjectRefs;
    assert forall q | q in ps + [p] :: q in ps || q == p;
    assert forall q | q in ps || q == p :: q in ps + [p];
  }

  lemma ResolveProjectsLast(ctx: Context, log: Log, ps: seq<Project>)
    requires ps != []
    ensures ResolveProjects(ctx, log, ps).1
            == ResolveProject(ctx, ResolveProjects(ctx, log, ps[..|ps| - 1]).1, ps[|ps| - 1]).1
  {
    hide ResolveProject;
  }

  lemma NothingBinds(ctx: Context, log: Log)
    ensures Binds(ctx.crc, log.envs, ProjectsRefs(ctx, []), ResolveProjects(ctx, log, []).1.envs)
  {
    assert ProjectsRefs(ctx, []) == {};
  }

  lemma {:induction false} ResolveProjectsBind(ctx: Context, log: Log, ps: seq<Project>)
    ensures Binds(ctx.crc, log.envs, ProjectsRefs(ctx, ps), ResolveProjects(ctx, log, ps).1.envs)
    decreases |ps|
  {
    hide *;
    if ps == [] {
      NothingBinds(ctx, log);
    } else {
      var front, last := ps[..|ps| - 1], ps[|ps| - 1];
      var l := ResolveProjects(ctx, log, front).1;
      ResolveProjectsBind(ctx, log, front);
      ResolveProjectBinds(ctx, l, last);
      BindsTrans(ctx.crc, log.envs, ProjectsRefs(ctx, front), l.envs, ProjectRefs(ctx, last), ResolveProject(ctx, l, last).1.envs);
      ProjectsRefsSnoc(ctx, front, last);
      ResolveProjectsLast(ctx, log, ps);
      assert ps == front + [last];
    }
  }

  lemma ResolveOidcBinds(ctx: Context, log: Log, sso: Sso, oidc: Oidc)
    ensures Binds(ctx.crc, log.envs, RefOf(ctx, oidc.clientSecret), ResolveOidc(ctx, log, sso, oidc).1.envs)
  {
    hide Resolve, Binds, RefOf;
    ResolveBinds(ctx, log, oidc.clientSecret, "Failed to get OIDC Client Secret");
  }

  lemma ResolveSamlBinds(ctx: Context, log: Log, sso: Sso, saml: Credential)
    ensures Binds(ctx.crc, log.envs, RefOf(ctx, saml), ResolveSaml(ctx, log, sso, saml).1.envs)
  {
    hide Resolve, Binds, RefOf;
    ResolveBinds(ctx, log, saml, "Failed to get SAML Identity Provider Metadata");
  }

  lemma ResolveSsoBinds(ctx: Context, log: Log, sso: Option<Sso>)
    ensures Binds(ctx.crc, log.envs, SsoRefs(ctx, sso), ResolveSso(ctx, log, sso).1.envs)
  {
    if sso.Some? && sso.value.enabled {
      hide ResolveOidc, ResolveSaml, RefOf;
      if sso.value.oidc.Some? {
        ResolveOidcBinds(ctx, log, sso.value, sso.value.oidc.value);
      } else if sso.value.saml.Some? {
        ResolveSamlBinds(ctx, log, sso.value, sso.value.saml.value);
      }
    }
  }

  lemma ResolveAiBinds(ctx: Context, log: Log, ai: Option<Ai>)
    ensures Binds(ctx.crc, log.envs, AiRefs(ctx, ai), ResolveAi(ctx, log, ai).1.envs)
  {
    if ai.Some? && KnownProvider(ai.value.provider) {
      hide ResolveOptional;
      ResolveOptionalBinds(ctx, log, Section(ai.value, ai.value.provider), SectionError(ai.value.provider));
    }
  }

  lemma AfterSecretsBinds(ctx: Context, spec: TelemetrySpec, log: Log)
    ensures Binds(ctx.crc, log.envs, SsoRefs(ctx, spec.sso) + AiRefs(ctx, spec.ai), AfterSecrets(ctx, spec, log).1.envs)
  {
    hide ResolveSso, ResolveAi, SsoRefs, AiRefs, Binds;
    var l := ResolveSso(ctx, log, spec.sso).1;
    ResolveSsoBinds(ctx, log, spec.sso);
    ResolveAiBinds(ctx, l, spec.ai);
    BindsTrans(ctx.crc, log.envs, SsoRefs(ctx, spec.sso), l.envs, AiRefs(ctx, spec.ai), ResolveAi(ctx, l, spec.ai).1.envs);
  }

  lemma BeforeSecretsBinds(ctx: Context, spec: TelemetrySpec)
    ensures var (before, log) := BeforeSecrets(ctx, spec);
            Binds(ctx.crc, map[], ProjectsRefs(ctx, spec.projects), log.envs)
            && before.sso == spec.sso && before.ai == spec.ai
  {
    hide Serving, ResolveProjects, ProjectsRefs, Binds;
    N.ServingPart(ctx, spec);
    ResolveProjectsBind(ctx, Serving(ctx, spec).1, spec.projects);
  }

  /** What is found depends on which keys there are, not on what is in them. */
  lemma FoundIsEnough(secrets: Secrets, wanted: map<string, seq<string>>, g: Generator, s: Selector)
    ensures HasSecret(WithWanted(secrets, wanted, g), s) <==> Found(secrets, wanted, s)
  {
  }

  lemma SameRefs(a: Context, b: Context, spec: TelemetrySpec)
    requires forall s: Selector :: HasSecret(a.secrets, s) <==> HasSecret(b.secrets, s)
    ensures SsoRefs(a, spec.sso) == SsoRefs(b, spec.sso) && AiRefs(a, spec.ai) == AiRefs(b, spec.ai)
  {
    hide HasSecret;
  }

  lemma LaterRefs(ctx: Context, spec: TelemetrySpec, g: Generator)
    ensures var later := ctx.(secrets := WithWanted(ctx.secrets, N.WantProjects(map[], spec.projects), g));
            SsoRefs(later, spec.sso) + AiRefs(later, spec.ai)
            == SsoRefs(Later(ctx, spec), spec.sso) + AiRefs(Later(ctx, spec), spec.ai)
  {
    hide SsoRefs, AiRefs, WithWanted, Found, HasSecret;
    var wanted := N.WantProjects(map[], spec.projects);
    var later := ctx.(secrets := WithWanted(ctx.secrets, wanted, g));
    forall s: Selector ensures HasSecret(later.secrets, s) <==> HasSecret(Later(ctx, spec).secrets, s) {
      FoundIsEnough(ctx.secrets, wanted, g, s);
      FoundIsEnough(ctx.secrets, wanted, (name, key) => "", s);
    }
    SameRefs(later, Later(ctx, spec), spec);
  }

  lemma FromNothing(crc: Checksum, refs: set<Selector>, b: Bindings)
    requires Binds(crc, map[], refs, b)
    ensures MadeFrom(crc, b, refs)
  {
  }

  /** The environment of a pass is made from exactly these references. */
  lemma EnvironmentIsMadeFrom(ctx: Context, spec: TelemetrySpec, generate: Generator)
    ensures MadeFrom(ctx.crc, Normalise(ctx, spec, generate).1.envs, BoundRefs(ctx, spec))
  {
    hide BeforeSecrets, AfterSecrets, ProjectsRefs, SsoRefs, AiRefs, Binds, MadeFrom, Later, WithWanted;
    var (before, log) := BeforeSecrets(ctx, spec);
    var later := ctx.(secrets := WithWanted(ctx.secrets, log.apiKeySecrets, generate));
    N.WantedDependsOnSpecOnly(ctx, spec, generate);
    BeforeSecretsBinds(ctx, spec);
    AfterSecretsBinds(later, before, log);
    LaterRefs(ctx, spec, generate);
    var refs := ProjectsRefs(ctx, spec.projects);
    var more := SsoRefs(later, spec.sso) + AiRefs(later, spec.ai);
    BindsTrans(ctx.crc, map[], refs, log.envs, more, AfterSecrets(later, before, log).1.envs);
    assert BoundRefs(ctx, spec) == refs + more;
    FromNothing(ctx.crc, refs + more, AfterSecrets(later, before, log).1.envs);
  }

  /** After validation each reference finds itself behind its placeholder's variable if and only if no
      two of the references bound have the same checksum. */
  lemma BoundToOwnReferenceIff(ctx: Context, spec: TelemetrySpec, generate: Generator)
    ensures BoundToThemselves(ctx.crc, Normalise(ctx, spec, generate).1.envs, BoundRefs(ctx, spec))
            <==> TellsApart(ctx.crc, BoundRefs(ctx, spec))
  {
    hide BoundRefs, Normalise;
    EnvironmentIsMadeFrom(ctx, spec, generate);
    OwnBindingIff(ctx.crc, Normalise(ctx, spec, generate).1.envs, BoundRefs(ctx, spec));
  }

  /** So in the container every placeholder turns into the content of the secret it stands for, as soon as
      no two references have the same checksum. */
  lemma PlaceholdersTurnIntoSecrets(ctx: Context, spec: TelemetrySpec, generate: Generator, secrets: Secrets, s: Selector)
    requires TellsApart(ctx.crc, BoundRefs(ctx, spec)) && s in BoundRefs(ctx, spec) && HasSecret(secrets, s)
    ensures Substituted(Normalise(ctx, spec, generate).1.envs, secrets, Placeholder(ctx.crc, s)) == secrets[s.name][s.key]
  {
    hide BoundRefs, Normalise, Placeholder, EnvName, VariableOf;
    BoundToOwnReferenceIff(ctx, spec, generate);
    PlaceholderReads(ctx.crc, s);
  }

  // Slashes.

  lemma {:induction false} WantedNames(wanted: map<string, seq<string>>, keys: seq<Credential>, n: string)
    requires n in N.WantKeys(wanted, keys)
    ensures n in wanted || exists k | k in keys :: k.secret.Some? && k.secret.value.name == n
    decreases |keys|
  {
    if keys != [] {
      var front, last := keys[..|keys| - 1], keys[|keys| - 1];
      assert keys == front + [last];
      if n in N.WantKeys(wanted, front) {
        WantedNames(wanted, front, n);
      } else {
        assert last in keys;
      }
    }
  }

  /** The references of all the API keys of a resource. */
  function ApiKeyRefs(ps: seq<Project>): set<Selector> {
    set p, s | p in ps && s in KeyRefs(p.apiKeys) :: s
  }

  lemma {:induction false} WantedNamesAreKeys(ps: seq<Project>, n: string)
    requires n in N.WantProjects(map[], ps)
    ensures exists s | s in ApiKeyRefs(ps) :: s.name == n
    decreases |ps|
  {
    if ps != [] {
      var front, last := ps[..|ps| - 1], ps[|ps| - 1];
      assert ps == front + [last];
      WantedNames(N.WantProjects(map[], front), last.apiKeys, n);
      if n in N.WantProjects(map[], front) {
        WantedNamesAreKeys(front, n);
        var s :| s in ApiKeyRefs(front) && s.name == n;
        var p :| p in front && s in KeyRefs(p.apiKeys);
        assert p in ps;
        assert s in ApiKeyRefs(ps);
      } else {
        var k :| k in last.apiKeys && k.secret.Some? && k.secret.value.name == n;
        assert last in ps && k.secret.value in KeyRefs(last.apiKeys);
        assert k.secret.value in ApiKeyRefs(ps);
      }
    }
  }

  lemma IntegrationRefsAreFound(ctx: Context, i: Option<Integrations>, s: Selector)
    requires s in IntegrationRefs(ctx, i)
    ensures HasSecret(ctx.secrets, s)
  {
    hide HasSecret;
  }

  lemma LaterHasMore(ctx: Context, spec: TelemetrySpec, s: Selector)
    requires HasSecret(ctx.secrets, s)
    ensures HasSecret(Later(ctx, spec).secrets, s)
  {
    FoundIsEnough(ctx.secrets, N.WantProjects(map[], spec.projects), (name, key) => "", s);
  }

  lemma ProjectRefsAreFoundOrKeys(ctx: Context, ps: seq<Project>, s: Selector)
    requires s in ProjectsRefs(ctx, ps)
    ensures s in ApiKeyRefs(ps) || HasSecret(ctx.secrets, s)
  {
    hide IntegrationRefs, HasSecret;
    var p :| p in ps && s in ProjectRefs(ctx, p);
    if s in KeyRefs(p.apiKeys) {
      assert s in ApiKeyRefs(ps);
    } else if s in IntegrationRefs(ctx, p.integrations) {
      IntegrationRefsAreFound(ctx, p.integrations, s);
    }
  }

  lemma RefsAreFoundOrKeys(ctx: Context, spec: TelemetrySpec, s: Selector)
    requires s in BoundRefs(ctx, spec)
    ensures s in ApiKeyRefs(spec.projects) || HasSecret(Later(ctx, spec).secrets, s)
  {
    hide ProjectsRefs, HasSecret, Later;
    if s in ProjectsRefs(ctx, spec.projects) {
      ProjectRefsAreFoundOrKeys(ctx, spec.projects, s);
      if HasSecret(ctx.secrets, s) {
        LaterHasMore(ctx, spec, s);
      }
    }
  }

  /** A slash can only come in through the name an API key refers to: nothing else is bound without
      having been found, and no secret of a cluster has one in its name. */
  lemma SlashesComeFromKeys(ctx: Context, spec: TelemetrySpec)
    requires forall n | n in ctx.secrets :: NoSlash(n)
    requires SlashFree(ApiKeyRefs(spec.projects))
    ensures SlashFree(BoundRefs(ctx, spec))
  {
    forall s | s in BoundRefs(ctx, spec) ensures NoSlash(s.name) {
      RefsAreFoundOrKeys(ctx, spec, s);
      if s !in ApiKeyRefs(spec.projects) && s.name !in ctx.secrets {
        WantedNamesAreKeys(spec.projects, s.name);
      }
    }
  }

  lemma SeparatesIffToldApart(crc: Checksum, refs: set<Selector>)
    requires SlashFree(refs)
    ensures TellsApart(crc, refs) <==> Separates(crc, refs)
  {
    if Separates(crc, refs) {
      SlashFreeToldApart(crc, refs);
    }
  }

  /** With slash-free names, each reference finds itself if and only if the checksum has no collision
      among the references bound. */
  lemma BoundWithoutSlashes(ctx: Context, spec: TelemetrySpec, generate: Generator)
    requires forall n | n in ctx.secrets :: NoSlash(n)
    requires SlashFree(ApiKeyRefs(spec.projects))
    ensures BoundToThemselves(ctx.crc, Normalise(ctx, spec, generate).1.envs, BoundRefs(ctx, spec))
            <==> Separates(ctx.crc, BoundRefs(ctx, spec))
  {
    hide BoundRefs, Normalise, ApiKeyRefs;
    SlashesComeFromKeys(ctx, spec);
    SeparatesIffToldApart(ctx.crc, BoundRefs(ctx, spec));
    BoundToOwnReferenceIff(ctx, spec, generate);
  }

  /** The API key at some place of the spec refers to a secret. */
  predicate RefersAt(spec: TelemetrySpec, i: nat, j: nat, s: Selector) {
    i < |spec.projects| && j < |spec.projects[i].apiKeys| && spec.projects[i].apiKeys[j].secret == Some(s)
  }

  /** Two API keys, of one project or of two, that refer to different keys of one checksum: both get the
      same placeholder, and one of the two does not find itself behind it. */
  lemma KeysShareAVariable(ctx: Context, spec: TelemetrySpec, generate: Generator,
                           i: nat, j: nat, i': nat, j': nat, a: Selector, b: Selector)
    requires RefersAt(spec, i, j, a) && RefersAt(spec, i', j', b)
    requires a != b && EnvName(ctx.crc, a) == EnvName(ctx.crc, b)
    ensures var (after, log) := Normalise(ctx, spec, generate);
            && |after.projects| == |spec.projects|
            && |after.projects[i].apiKeys| == |spec.projects[i].apiKeys|
            && |after.projects[i'].apiKeys| == |spec.projects[i'].apiKeys|
            && after.projects[i].apiKeys[j] == after.projects[i'].apiKeys[j']
            && a in BoundRefs(ctx, spec) && b in BoundRefs(ctx, spec)
            && !BoundToThemselves(ctx.crc, log.envs, {a, b})
  {
    hide BoundRefs, Normalise, EnvName;
    N.KeySlotOf(ctx, spec, generate, i, j);
    N.KeySlotOf(ctx, spec, generate, i', j');
    KeyRefIsBound(ctx, spec, spec.projects[i], j);
    KeyRefIsBound(ctx, spec, spec.projects[i'], j');
    assert a in {a, b} && b in {a, b};
  }

  /** So it is for the keys c of a/b and b/c of a, whatever the checksum, the store and the rest of the
      spec: API keys are bound without a look at the store, which could have no secret named a/b. */
  lemma SlashedKeysShareAVariable(ctx: Context, spec: TelemetrySpec, generate: Generator, i: nat, j: nat, i': nat, j': nat)
    requires RefersAt(spec, i, j, Selector("a/b", "c")) && RefersAt(spec, i', j', Selector("a", "b/c"))
    ensures var (after, log) := Normalise(ctx, spec, generate);
            && |after.projects| == |spec.projects|
            && |after.projects[i].apiKeys| == |spec.projects[i].apiKeys|
            && |after.projects[i'].apiKeys| == |spec.projects[i'].apiKeys|
            && after.projects[i].apiKeys[j] == after.projects[i'].apiKeys[j']
            && !BoundToThemselves(ctx.crc, log.envs, BoundRefs(ctx, spec))
  {
    hide BoundRefs, Normalise, EnvName;
    SlashesCollide(ctx.crc);
    KeysShareAVariable(ctx, spec, generate, i, j, i', j', Selector("a/b", "c"), Selector("a", "b/c"));
  }

  lemma KeyRefIsBound(ctx: Context, spec: TelemetrySpec, p: Project, j: nat)
    requires p in spec.projects && j < |p.apiKeys| && p.apiKeys[j].secret.Some?
    ensures p.apiKeys[j].secret.value in BoundRefs(ctx, spec)
  {
    assert p.apiKeys[j] in p.apiKeys;
    assert p.apiKeys[j].secret.value in ProjectRefs(ctx, p);
  }
}
