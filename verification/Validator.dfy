/** validateTelemetry itself: it edits the resource in place, block by block. */
module Validator {
  import opened Trees
  import opened ConfigEnvs
  import opened Spec
  import opened Validate
  import opened Topology

  lemma AddKeysStep(data: map<string, string>, name: string, keys: seq<string>, k: string, generate: Generator)
    ensures AddKeys(data, name, keys + [k], generate) ==
            var d := AddKeys(data, name, keys, generate);
            if k in d then d else d[k := generate(name, k)]
  {
    var d := AddKeys(data, name, keys, generate);
    var e := AddKeys(data, name, keys + [k], generate);
    assert forall x :: x in keys + [k] <==> x in keys || x == k;
    assert e.Keys == d.Keys + {k};
  }

  method GenerateMissing(before: map<string, string>, name: string, keys: seq<string>, generate: Generator)
    returns (data: map<string, string>)
    ensures data == AddKeys(before, name, keys, generate)
  {
    data := before;
    for i := 0 to |keys|
      invariant data == AddKeys(before, name, keys[..i], generate)
    {
      AddKeysStep(before, name, keys[..i], keys[i], generate);
      if keys[i] !in data {
        data := data[keys[i] := generate(name, keys[i])];
      }
      assert keys[..i + 1] == keys[..i] + [keys[i]];
    }
    assert keys[..|keys|] == keys;
  }

  lemma WithWantedStep(before: Secrets, wanted: map<string, seq<string>>, todo: set<string>, n: string, generate: Generator)
    requires n in todo && n in wanted
    ensures var a := WithWanted(before, wanted - todo, generate);
            DataOf(a, n) == DataOf(before, n)
            && WithWanted(before, wanted - (todo - {n}), generate)
               == a[n := AddKeys(DataOf(before, n), n, wanted[n], generate)]
  {
    var fewer, more := wanted - todo, wanted - (todo - {n});
    assert more == fewer[n := wanted[n]];
    WithOneMore(before, fewer, n, wanted[n], generate);
  }

  lemma NothingWanted(before: Secrets, wanted: map<string, seq<string>>, generate: Generator)
    requires wanted.Keys == {}
    ensures WithWanted(before, wanted, generate) == before
  {
  }

  lemma WithOneMore(before: Secrets, wanted: map<string, seq<string>>, n: string, keys: seq<string>, generate: Generator)
    requires n !in wanted
    ensures DataOf(WithWanted(before, wanted, generate), n) == DataOf(before, n)
    ensures WithWanted(before, wanted[n := keys], generate)
            == WithWanted(before, wanted, generate)[n := AddKeys(DataOf(before, n), n, keys, generate)]
  {
    var a := WithWanted(before, wanted, generate)[n := AddKeys(DataOf(before, n), n, keys, generate)];
    var b := WithWanted(before, wanted[n := keys], generate);
    assert a.Keys == b.Keys;
    forall k | k in a ensures a[k] == b[k] {
    }
  }

  class Validator {
    var spec: TelemetrySpec
    var errors: seq<string>
    var apiKeySecrets: map<string, seq<string>>
    var secrets: Secrets
    const configEnvs: Envs
    const crc: Checksum
    const samlValid: string -> bool

    constructor (spec: TelemetrySpec, secrets: Secrets, configEnvs: Envs, crc: Checksum, samlValid: string -> bool)
      ensures this.spec == spec && this.secrets == secrets && this.configEnvs == configEnvs
      ensures this.crc == crc && this.samlValid == samlValid
      ensures errors == [] && apiKeySecrets == map[]
    {
      this.spec := spec;
      this.secrets := secrets;
      this.configEnvs := configEnvs;
      this.crc := crc;
      this.samlValid := samlValid;
      errors := [];
      apiKeySecrets := map[];
    }

    ghost function Ctx(): Context
      reads this
    {
      Context(secrets, crc, samlValid)
    }

    ghost function Sofar(): Log
      reads this, configEnvs
    {
      Log(configEnvs.bindings, errors, apiKeySecrets)
    }

    method Settle(c: Credential, error: string) returns (r: Credential)
      modifies this`errors, configEnvs
      ensures (r, Sofar()) == Resolve(Ctx(), old(Sofar()), c, error)
    {
      r := c;
      if c.secret.Some? {
        if HasSecret(secrets, c.secret.value) {
          var placeholder := configEnvs.Add(crc, c.secret.value);
          r := r.(value := placeholder);
        } else {
          errors := errors + [error];
        }
        r := r.(secret := None);
      }
    }

    method SettleOptional(c: Option<Credential>, error: string) returns (r: Option<Credential>)
      modifies this`errors, configEnvs
      ensures (r, Sofar()) == ResolveOptional(Ctx(), old(Sofar()), c, error)
    {
      r := c;
      if c.Some? {
        var settled := Settle(c.value, error);
        r := Some(settled);
        if settled.value == "" {
          r := None;
        }
      }
    }

    method SettleRemote(remote: Option<RemoteTelemetry>) returns (r: Option<RemoteTelemetry>)
      modifies this`errors, configEnvs
      ensures (r, Sofar()) == ResolveRemote(Ctx(), old(Sofar()), remote)
    {
      r := remote;
      if remote.Some? {
        var rc := remote.value;
        var key := Settle(rc.apiKey, "Failed to get Remote Telemetry API Key");
        rc := rc.(apiKey := key);
        r := Some(rc);
        if rc.url == "" || rc.apiKey.value == "" || rc.metricResolution == "" {
          errors := errors + ["Remote Telemetry requires url, apiKey, and metricResolution."];
          r := None;
        }
      }
    }

    method SettleKey(k: Credential) returns (r: Credential)
      modifies this`apiKeySecrets, configEnvs
      ensures (r, Sofar()) == ResolveKey(Ctx(), old(Sofar()), k)
    {
      r := k;
      if k.secret.Some? {
        var s := k.secret.value;
        var wanted := if s.name in apiKeySecrets then apiKeySecrets[s.name] else [];
        apiKeySecrets := apiKeySecrets[s.name := wanted + [s.key]];
        var placeholder := configEnvs.Add(crc, s);
        r := Credential(placeholder, None);
      }
    }

    method SettleKeys(keys: seq<Credential>) returns (r: seq<Credential>)
      modifies this`apiKeySecrets, configEnvs
      ensures (r, Sofar()) == ResolveKeys(Ctx(), old(Sofar()), keys)
    {
      hide ResolveKey;
      r := keys;
      for i := 0 to |keys|
        invariant |r| == |keys| && forall j | i <= j < |r| :: r[j] == keys[j]
        invariant (r[..i], Sofar()) == ResolveKeys(Ctx(), old(Sofar()), keys[..i])
      {
        ghost var settled, more := r[..i], keys[..i + 1];
        assert more[..|more| - 1] == keys[..i] && more[|more| - 1] == keys[i];
        var k := SettleKey(keys[i]);
        r := r[i := k];
        assert r[..i + 1] == settled + [k];
      }
      assert keys[..|keys|] == keys && r[..|keys|] == r;
    }

    method SettleBasicAuth(auth: Option<BasicAuth>) returns (r: Option<BasicAuth>)
      modifies this`errors, configEnvs
      ensures (r, Sofar()) == ResolveBasicAuth(Ctx(), old(Sofar()), auth)
    {
      r := auth;
      if auth.Some? {
        var password := Settle(auth.value.password, "Failed to get Webhook Basic Auth password");
        r := Some(auth.value.(password := password));
        if auth.value.username == "" || password.value == "" {
          r := None;
        }
      }
    }

    method SettleWebhook(webhook: Option<Webhook>) returns (r: Option<Webhook>)
      modifies this`errors, configEnvs
      ensures (r, Sofar()) == ResolveWebhook(Ctx(), old(Sofar()), webhook)
    {
      r := webhook;
      if webhook.Some? {
        var w := webhook.value;
        var auth := SettleBasicAuth(w.basicAuth);
        w := w.(basicAuth := auth);
        if w.incidents && w.incidentTemplate == "" {
          w := w.(incidents := false);
        }
        if w.deployments && w.deploymentTemplate == "" {
          w := w.(deployments := false);
        }
        r := Some(w);
        if w.url == "" {
          r := None;
        }
      }
    }

    method SettleIntegrations(integrations: Option<Integrations>) returns (r: Option<Integrations>)
      modifies this`errors, configEnvs
      ensures (r, Sofar()) == ResolveIntegrations(Ctx(), old(Sofar()), integrations)
    {
      r := integrations;
      if integrations.Some? {
        var i := integrations.value;
        var slack := SettleOptional(i.slack, "Failed to get Slack Token");
        var teams := SettleOptional(i.teams, "Failed to get MS Teams Webhook URL");
        var pagerduty := SettleOptional(i.pagerduty, "Failed to get PagerDuty Integration Key");
        var opsgenie := SettleOptional(i.opsgenie, "Failed to get Opsgenie API Key");
        var webhook := SettleWebhook(i.webhook);
        r := Some(Integrations(slack, teams, pagerduty, opsgenie, webhook));
      }
    }

    method SettleProject(project: Project) returns (p: Project)
      modifies this`errors, this`apiKeySecrets, configEnvs
      ensures (p, Sofar()) == ResolveProject(Ctx(), old(Sofar()), project)
    {
      p := project;
      var remote := SettleRemote(p.remote);
      p := p.(remote := remote);
      var keys := SettleKeys(p.apiKeys);
      p := p.(apiKeys := keys);
      var integrations := SettleIntegrations(p.integrations);
      p := p.(integrations := integrations);
    }

    method SettleProjects(projects: seq<Project>) returns (ps: seq<Project>)
      modifies this`errors, this`apiKeySecrets, configEnvs
      ensures (ps, Sofar()) == ResolveProjects(Ctx(), old(Sofar()), projects)
    {
      hide ResolveProject;
      ps := projects;
      for i := 0 to |projects|
        invariant |ps| == |projects| && forall j | i <= j < |ps| :: ps[j] == projects[j]
        invariant (ps[..i], Sofar()) == ResolveProjects(Ctx(), old(Sofar()), projects[..i])
      {
        ghost var settled, more := ps[..i], projects[..i + 1];
        assert more[..|more| - 1] == projects[..i] && more[|more| - 1] == projects[i];
        var p := SettleProject(ps[i]);
        ps := ps[i := p];
        assert ps[..i + 1] == settled + [p];
      }
      assert projects[..|projects|] == projects && ps[..|projects|] == ps;
    }

    method ValidateProjects()
      modifies this`spec, this`errors, this`apiKeySecrets, configEnvs
      ensures var (ps, log) := ResolveProjects(Ctx(), old(Sofar()), old(spec.projects));
              spec == old(spec).(projects := ps) && Sofar() == log
    {
      var projects := SettleProjects(spec.projects);
      spec := spec.(projects := projects);
    }

    method ValidateReplicas()
      modifies this`spec, this`errors
      ensures (spec, Sofar()) == CapReplicas(old(spec), old(Sofar()))
    {
      if spec.replicas > 1 && !spec.postgres {
        errors := errors + ["Telemetry requires Postgres to run multiple replicas. Falling back to 1 replica."];
        spec := spec.(replicas := 1);
      }
    }

    method ValidatePorts()
      modifies this`spec
      ensures spec == DefaultPorts(old(spec))
    {
      var s := spec.service;
      if s.port == 0 {
        s := s.(port := 8080);
      }
      if !spec.grpcDisabled && s.grpcPort == 0 {
        s := s.(grpcPort := 4317);
      }
      if (spec.tls.Some? || spec.httpDisabled) && s.httpsPort == 0 {
        s := s.(httpsPort := 8443);
      }
      spec := spec.(service := s);
    }

    method CheckCacheSize(s3: S3, size: nat)
      modifies this`errors
      ensures Sofar() == if OrDefault(s3.cacheSize, 10 * GIB) >= OrDefault(size, 100 * GIB)
                         then Fail(old(Sofar()), S3_CACHE_ERROR) else old(Sofar())
    {
      var storageSize := size;
      if storageSize == 0 { storageSize := 100 * GIB; }
      var cacheSize := s3.cacheSize;
      if cacheSize == 0 { cacheSize := 10 * GIB; }
      if cacheSize >= storageSize {
        errors := errors + [S3_CACHE_ERROR];
      }
    }

    method ValidateS3()
      modifies this`spec, this`errors
      ensures (spec, Sofar()) == CheckS3(old(spec), old(Sofar()))
    {
      if spec.clickhouse.s3.Some? {
        var s3 := spec.clickhouse.s3.value;
        CheckCacheSize(s3, spec.clickhouse.storage.size);
        if !(s3.endpoint != "" && s3.endpoint[|s3.endpoint| - 1] == '/') {
          s3 := s3.(endpoint := s3.endpoint + "/");
        }
        spec := spec.(clickhouse := spec.clickhouse.(s3 := Some(s3)));
      }
    }

    method ValidateTls()
      modifies this`spec, this`errors
      ensures (spec, Sofar()) == CheckTls(Ctx(), old(spec), old(Sofar()))
    {
      if spec.tls.Some? {
        var ok := true;
        if !HasSecret(secrets, spec.tls.value.certSecret) {
          errors := errors + ["Failed to get TLS Cert"];
          ok := false;
        }
        if !HasSecret(secrets, spec.tls.value.keySecret) {
          errors := errors + ["Failed to get TLS Key"];
          ok := false;
        }
        if !ok {
          spec := spec.(tls := None);
        }
      }
    }

    method ValidateAdminPassword()
      modifies this`spec, this`errors
      ensures (spec, Sofar()) == CheckAdminPassword(Ctx(), old(spec), old(Sofar()))
    {
      if spec.adminPassword.secret.Some? {
        if !HasSecret(secrets, spec.adminPassword.secret.value) {
          errors := errors + ["Failed to get Admin Password"];
          spec := spec.(adminPassword := Credential("", None));
        }
      }
    }

    /** CreateOrUpdateSecret on the data of one secret: missing keys are generated, present ones stay. */
    method EnsureSecret(name: string, keys: seq<string>, generate: Generator)
      modifies this`secrets
      ensures secrets == old(secrets)[name := AddKeys(DataOf(old(secrets), name), name, keys, generate)]
    {
      var data := GenerateMissing(DataOf(secrets, name), name, keys, generate);
      secrets := secrets[name := data];
    }

    method EnsureApiKeySecrets(generate: Generator)
      modifies this`secrets
      ensures secrets == WithWanted(old(secrets), apiKeySecrets, generate)
    {
      hide WithWanted, AddKeys;
      var todo := apiKeySecrets.Keys;
      ghost var before := secrets;
      NothingWanted(before, apiKeySecrets - todo, generate);
      while todo != {}
        invariant todo <= apiKeySecrets.Keys
        invariant secrets == WithWanted(before, apiKeySecrets - todo, generate)
        decreases |todo|
      {
        var name :| name in todo;
        WithWantedStep(before, apiKeySecrets, todo, name, generate);
        EnsureSecret(name, apiKeySecrets[name], generate);
        todo := todo - {name};
      }
      assert apiKeySecrets - todo == apiKeySecrets;
    }

    method ValidateOidc(sso: Sso, oidc: Oidc) returns (r: Sso)
      requires sso.enabled
      modifies this`errors, configEnvs
      ensures (r, Sofar()) == ResolveOidc(Ctx(), old(Sofar()), sso, oidc)
    {
      var valid := false;
      r := sso;
      var secret := Settle(oidc.clientSecret, "Failed to get OIDC Client Secret");
      r := r.(oidc := Some(oidc.(clientSecret := secret)));
      if oidc.issuerURL != "" && oidc.clientID != "" && secret.value != "" {
        r := r.(provider := "oidc");
        valid := true;
      } else {
        errors := errors + ["OIDC SSO requires issuerURL, clientID, and clientSecret"];
      }
      if !valid {
        r := r.(enabled := false);
      }
    }

    method ValidateSaml(sso: Sso, saml: Credential) returns (r: Sso)
      requires sso.enabled
      modifies this`errors, configEnvs
      ensures (r, Sofar()) == ResolveSaml(Ctx(), old(Sofar()), sso, saml)
    {
      var valid := false;
      r := sso;
      var metadata := saml.value;
      if saml.secret.Some? {
        var s := saml.secret.value;
        metadata := if HasSecret(secrets, s) then secrets[s.name][s.key] else "";
      }
      var settled := Settle(saml, "Failed to get SAML Identity Provider Metadata");
      r := r.(saml := Some(settled));
      if metadata != "" {
        if !samlValid(metadata) {
          errors := errors + ["Invalid SAML Identity Provider Metadata"];
          r := r.(saml := Some(settled.(value := "")));
        } else {
          r := r.(provider := "saml");
          valid := true;
        }
      }
      if !valid {
        r := r.(enabled := false);
      }
    }

    method ValidateSso()
      modifies this`spec, this`errors, configEnvs
      ensures var (sso, log) := ResolveSso(Ctx(), old(Sofar()), old(spec.sso));
              spec == old(spec).(sso := sso) && Sofar() == log
    {
      if spec.sso.Some? && spec.sso.value.enabled {
        var sso := spec.sso.value;
        if sso.oidc.Some? {
          sso := ValidateOidc(sso, sso.oidc.value);
        } else if sso.saml.Some? {
          sso := ValidateSaml(sso, sso.saml.value);
        } else {
          errors := errors + ["SSO is enabled but neither saml nor oidc configuration is provided"];
          sso := sso.(enabled := false);
        }
        spec := spec.(sso := Some(sso));
      }
    }

    method ValidateAi()
      modifies this`spec, this`errors, configEnvs
      ensures var (ai, log) := ResolveAi(Ctx(), old(Sofar()), old(spec.ai));
              spec == old(spec).(ai := ai) && Sofar() == log
    {
      if spec.ai.Some? && spec.ai.value.provider != "" {
        var ai := spec.ai.value;
        if ai.provider == "anthropic" {
          var c := SettleOptional(ai.anthropic, "Failed to get Anthropic API Key");
          ai := ai.(anthropic := c);
          if c.None? { ai := ai.(provider := ""); }
        } else if ai.provider == "openai" {
          var c := SettleOptional(ai.openai, "Failed to get OpenAI API Key");
          ai := ai.(openai := c);
          if c.None? { ai := ai.(provider := ""); }
        } else if ai.provider == "openai_compatible" {
          var c := SettleOptional(ai.openaiCompatible, "Failed to get API Key");
          ai := ai.(openaiCompatible := c);
          if c.None? { ai := ai.(provider := ""); }
        } else {
          errors := errors + ["Unknown AI model provider"];
          ai := ai.(provider := "");
        }
        spec := spec.(ai := Some(ai));
      }
    }

    /** Everything up to the creation of the API key secrets. */
    method ValidateBeforeSecrets()
      requires Sofar() == EmptyLog
      modifies this`spec, this`errors, this`apiKeySecrets, configEnvs
      ensures (spec, Sofar()) == BeforeSecrets(Ctx(), old(spec))
    {
      ValidateReplicas();
      ValidatePorts();
      ValidateS3();
      ValidateTls();
      ValidateAdminPassword();
      ValidateProjects();
    }

    method ValidateAfterSecrets()
      modifies this`spec, this`errors, configEnvs
      ensures (spec, Sofar()) == AfterSecrets(Ctx(), old(spec), old(Sofar()))
    {
      ValidateSso();
      ValidateAi();
    }

    method Validate(generate: Generator)
      requires Sofar() == EmptyLog
      modifies this, configEnvs
      ensures (spec, Sofar()) == Normalise(old(Ctx()), old(spec), generate)
      ensures secrets == WithWanted(old(secrets), apiKeySecrets, generate)
    {
      ValidateBeforeSecrets();
      EnsureApiKeySecrets(generate);
      ValidateAfterSecrets();
    }
  }
}
