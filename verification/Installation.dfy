/** What an installation consists of, read off the resource, and that a pass creates just that. */
module Installation {
  import opened Trees
  import opened LastApplied
  import opened Naming
  import opened Topology
  import opened Spec
  import opened Objects
  import opened Inventory
  import opened Reconcile
  import opened Settling
  import opened Passes
  import opened Neighbours
  import N = Normalised
  import C = Convergence

  predicate OwnMetrics(spec: TelemetrySpec) {
    spec.agentsOnly.None? && !spec.externalPrometheus && !spec.storeMetricsInClickhouse
  }

  predicate OwnClickhouse(spec: TelemetrySpec) { spec.agentsOnly.None? && !spec.externalClickhouse }

  predicate BelongsTo(spec: TelemetrySpec, component: Component) {
    match component
    case NodeAgents => true
    case ClusterAgents => true
    case Telemetries => spec.agentsOnly.None?
    case Prometheuses => OwnMetrics(spec)
    case Keepers => OwnClickhouse(spec)
    case Clickhouses => OwnClickhouse(spec)
  }

  /** One claim for each pod that is going to be there; several telemetry pods need Postgres. */
  predicate ClaimBelongs(spec: TelemetrySpec, claim: ClaimId) {
    match claim
    case Telemetry(r) => spec.agentsOnly.None? && r < if spec.postgres && spec.replicas > 1 then spec.replicas else 1
    case Prometheus => OwnMetrics(spec)
    case Keeper(r) => OwnClickhouse(spec) && r < if spec.clickhouse.keeperReplicas > 0 then spec.clickhouse.keeperReplicas else 3
    case Shard(s, r) =>
      && OwnClickhouse(spec)
      && s < (if spec.clickhouse.shards > 0 then spec.clickhouse.shards else 1)
      && r < if spec.clickhouse.replicas > 0 then spec.clickhouse.replicas else 1
  }

  /** A project refers to the secret for one of its API keys. */
  predicate KeepsApiKey(spec: TelemetrySpec, name: string) {
    exists i, j | 0 <= i < |spec.projects| && 0 <= j < |spec.projects[i].apiKeys| ::
      spec.projects[i].apiKeys[j].secret.Some? && spec.projects[i].apiKeys[j].secret.value.name == name
  }

  /** The objects of an installation: the agents always, the rest unless only agents are asked for, and
      Prometheus and ClickHouse unless they are somebody else's. */
  predicate Belongs(cr: Cr, id: Id) {
    match id
    case SccRole(_) => true
    case Account(c) => BelongsTo(cr.spec, c)
    case Binding(c) => BelongsTo(cr.spec, c)
    case NodeAgent => true
    case ClusterAgent => true
    case AgentRole => true
    case AgentRoleBinding => true
    case Volume(claim) => ClaimBelongs(cr.spec, claim)
    case Config => cr.spec.agentsOnly.None?
    case TelemetrySet => cr.spec.agentsOnly.None?
    case TelemetryService => cr.spec.agentsOnly.None?
    case Route => cr.spec.agentsOnly.None? && cr.spec.ingress.Some?
    case OldDeployment => false
    case PrometheusServer => OwnMetrics(cr.spec)
    case PrometheusService => OwnMetrics(cr.spec)
    case KeeperSet => OwnClickhouse(cr.spec)
    case KeeperService => OwnClickhouse(cr.spec)
    case ShardSet(n) => OwnClickhouse(cr.spec) && n < if cr.spec.clickhouse.shards > 0 then cr.spec.clickhouse.shards else 1
    case ShardService => OwnClickhouse(cr.spec)
    case ClickhouseService => OwnClickhouse(cr.spec)
    case SecretOf(n) => (OwnClickhouse(cr.spec) && n == cr.name + "-clickhouse") || KeepsApiKey(cr.spec, n)
  }

  // The plan has exactly these.

  predicate Makes(items: seq<Item>, id: Id) { Ensure(id) in Expand(items) }

  lemma MakesAppend(a: seq<Item>, b: seq<Item>, id: Id)
    ensures Makes(a + b, id) <==> Makes(a, id) || Makes(b, id)
  {
    ExpandAppend(a, b);
  }

  lemma {:induction false} FlatExpands(items: seq<Item>)
    requires Flat(items)
    ensures Expand(items) == items
    decreases |items|
  {
    if items != [] {
      FlatExpands(items[..|items| - 1]);
      assert items == items[..|items| - 1] + [items[|items| - 1]];
    }
  }

  lemma MakesLoop(claims: seq<ClaimId>, id: Id)
    ensures Makes([Claims(claims)], id) <==> id.Volume? && id.id in claims
  {
    assert [Claims(claims)][..0] == [];
    assert Expand([Claims(claims)]) == Singles(Claims(claims));
    SinglesHave(Claims(claims), id);
  }

  lemma MakesAround(front: seq<Item>, claims: seq<ClaimId>, back: seq<Item>, id: Id)
    requires Flat(front) && Flat(back)
    ensures Makes(front + [Claims(claims)] + back, id) <==> Ensure(id) in front || (id.Volume? && id.id in claims) || Ensure(id) in back
  {
    hide Makes;
    MakesAppend(front + [Claims(claims)], back, id);
    MakesAppend(front, [Claims(claims)], id);
    MakesLoop(claims, id);
    MakesFlat(front, id);
    MakesFlat(back, id);
  }

  lemma MakesFlat(items: seq<Item>, id: Id)
    requires Flat(items)
    ensures Makes(items, id) <==> Ensure(id) in items
  {
    FlatExpands(items);
  }

  lemma AgentsMake(id: Id)
    ensures Makes(RoleItems(), id) <==> id.SccRole?
    ensures Makes(AgentItems(), id)
            <==> || id == Account(NodeAgents) || id == Binding(NodeAgents) || id.NodeAgent?
                 || id == Account(ClusterAgents) || id == Binding(ClusterAgents)
                 || id.AgentRole? || id.AgentRoleBinding? || id.ClusterAgent?
  {
    MakesFlat(RoleItems(), id);
    MakesFlat(AgentItems(), id);
    hide Makes;
  }

  lemma InTelemetryClaims(spec: TelemetrySpec, c: ClaimId)
    ensures c in TelemetryClaims(spec) <==> c.Telemetry? && c.replica < Count(OrOne(spec.replicas))
  {
    if c.Telemetry? && c.replica < Count(OrOne(spec.replicas)) {
      assert TelemetryClaims(spec)[c.replica] == c;
    }
  }

  lemma InKeeperClaims(spec: TelemetrySpec, c: ClaimId)
    ensures c in KeeperClaims(spec) <==> c.Keeper? && c.replica < KeeperReplicas(spec.clickhouse.keeperReplicas)
  {
    if c.Keeper? && c.replica < KeeperReplicas(spec.clickhouse.keeperReplicas) {
      assert KeeperClaims(spec)[c.replica] == c;
    }
  }

  lemma {:induction false} InShardClaims(shards: nat, replicas: nat, c: ClaimId)
    ensures c in ShardClaims(shards, replicas) <==> c.Shard? && c.shard < shards && c.replica < replicas
    decreases shards
  {
    if shards > 0 {
      InShardClaims(shards - 1, replicas, c);
      var row := ShardRowClaims(shards - 1, replicas);
      if c.Shard? && c.shard == shards - 1 && c.replica < replicas {
        assert row[c.replica] == c;
      }
    }
  }

  lemma InShardSets(shards: nat, id: Id)
    ensures Ensure(id) in ShardSetItems(shards) <==> id.ShardSet? && id.shard < shards
  {
    if id.ShardSet? && id.shard < shards {
      assert ShardSetItems(shards)[id.shard] == Ensure(id);
    }
  }

  lemma TelemetryMakes(spec: TelemetrySpec, id: Id)
    ensures Makes(TelemetryItems(spec), id)
            <==> || id == Account(Telemetries) || id == Binding(Telemetries)
                 || id.Config? || id.TelemetrySet? || id.TelemetryService?
                 || (id.Volume? && id.id.Telemetry? && id.id.replica < Count(OrOne(spec.replicas)))
  {
    MakesAround(AccountItems(Telemetries), TelemetryClaims(spec), TelemetrySetItems(), id);
    if id.Volume? {
      InTelemetryClaims(spec, id.id);
    }
    hide Makes, TelemetryClaims;
  }

  lemma PrometheusMakes(spec: TelemetrySpec, id: Id)
    ensures Makes(PrometheusItems(spec), id)
            <==> && !spec.externalPrometheus && !spec.storeMetricsInClickhouse
                 && (|| id == Account(Prometheuses) || id == Binding(Prometheuses)
                     || id == Volume(Prometheus) || id.PrometheusServer? || id.PrometheusService?)
  {
    if !(spec.externalPrometheus || spec.storeMetricsInClickhouse) {
      var back := [Ensure(PrometheusServer), Ensure(PrometheusService)];
      assert PrometheusItems(spec) == AccountItems(Prometheuses) + [Claims([Prometheus])] + back;
      MakesAround(AccountItems(Prometheuses), [Prometheus], back, id);
    } else {
      MakesFlat([], id);
    }
    hide Makes;
  }

  lemma KeepersMake(spec: TelemetrySpec, id: Id)
    ensures Makes(KeeperItems(spec), id)
            <==> || id == Account(Keepers) || id == Binding(Keepers) || id.KeeperService? || id.KeeperSet?
                 || (id.Volume? && id.id.Keeper? && id.id.replica < KeeperReplicas(spec.clickhouse.keeperReplicas))
  {
    var front := AccountItems(Keepers) + [Ensure(KeeperService)];
    assert KeeperItems(spec) == front + [Claims(KeeperClaims(spec))] + [Ensure(KeeperSet)];
    MakesAround(front, KeeperClaims(spec), [Ensure(KeeperSet)], id);
    if id.Volume? {
      InKeeperClaims(spec, id.id);
    }
    hide Makes, KeeperClaims;
  }

  lemma ShardsMake(spec: TelemetrySpec, id: Id)
    ensures Makes(ShardItems(spec), id)
            <==> || id == Account(Clickhouses) || id == Binding(Clickhouses) || id.ShardService? || id.ClickhouseService?
                 || (id.ShardSet? && id.shard < AtLeastOne(spec.clickhouse.shards))
                 || (id.Volume? && id.id.Shard? && id.id.shard < Count(OrOne(spec.clickhouse.shards))
                     && id.id.replica < Count(OrOne(spec.clickhouse.replicas)))
  {
    var front := AccountItems(Clickhouses) + [Ensure(ShardService)];
    var back := ShardSetItems(AtLeastOne(spec.clickhouse.shards)) + [Ensure(ClickhouseService)];
    assert ShardItems(spec) == front + [Claims(ClickhouseClaims(spec))] + back;
    MakesAround(front, ClickhouseClaims(spec), back, id);
    InShardSets(AtLeastOne(spec.clickhouse.shards), id);
    if id.Volume? {
      InShardClaims(Count(OrOne(spec.clickhouse.shards)), Count(OrOne(spec.clickhouse.replicas)), id.id);
    }
    hide Makes, ClickhouseClaims, ShardSetItems;
  }

  lemma ClickhouseMakes(name: string, spec: TelemetrySpec, id: Id)
    ensures Makes(ClickhouseItems(name, spec), id)
            <==> !spec.externalClickhouse
                 && (id == SecretOf(name + "-clickhouse") || Makes(KeeperItems(spec), id) || Makes(ShardItems(spec), id))
  {
    hide KeeperItems, ShardItems, Makes;
    if spec.externalClickhouse {
      MakesFlat([], id);
    } else {
      MakesFlat([Ensure(PasswordSecret(name))], id);
      MakesAppend([Ensure(PasswordSecret(name))], KeeperItems(spec), id);
      MakesAppend([Ensure(PasswordSecret(name))] + KeeperItems(spec), ShardItems(spec), id);
    }
  }

  lemma SmallMake(spec: TelemetrySpec, deleted: bool, id: Id)
    ensures Makes(OldDeploymentItems(deleted) + RouteItems(spec), id) <==> id.Route? && spec.ingress.Some?
  {
    MakesFlat(OldDeploymentItems(deleted) + RouteItems(spec), id);
  }

  lemma PlanMakes(name: string, spec: TelemetrySpec, deleted: bool, id: Id)
    ensures Makes(Plan(name, spec, deleted), id)
            <==> || Makes(AgentItems(), id)
                 || (spec.agentsOnly.None?
                     && (|| Makes(TelemetryItems(spec), id) || (id.Route? && spec.ingress.Some?)
                         || Makes(PrometheusItems(spec), id) || Makes(ClickhouseItems(name, spec), id)))
  {
    var small := OldDeploymentItems(deleted) + RouteItems(spec);
    SmallMake(spec, deleted, id);
    hide AgentItems, TelemetryItems, OldDeploymentItems, RouteItems, PrometheusItems, ClickhouseItems, Makes;
    if spec.agentsOnly.None? {
      var a := AgentItems() + TelemetryItems(spec);
      assert Plan(name, spec, deleted) == a + small + PrometheusItems(spec) + ClickhouseItems(name, spec);
      MakesAppend(a + small + PrometheusItems(spec), ClickhouseItems(name, spec), id);
      MakesAppend(a + small, PrometheusItems(spec), id);
      MakesAppend(a, small, id);
      MakesAppend(AgentItems(), TelemetryItems(spec), id);
    } else {
      assert Plan(name, spec, deleted) == AgentItems();
    }
  }

  /** What is wanted is what belongs, API key secrets apart: validation creates those. */
  lemma WantedIff(cr: Cr, deleted: bool, id: Id)
    requires Counted(cr.spec)
    ensures Makes(Wanted(cr, deleted), id)
            <==> if id.SecretOf? then OwnClickhouse(cr.spec) && id.name == cr.name + "-clickhouse" else Belongs(cr, id)
  {
    hide Makes, Plan, KeepsApiKey;
    var spec := Capped(cr.spec);
    MakesAppend(RoleItems(), Plan(cr.name, spec, deleted), id);
    PlanMakes(cr.name, spec, deleted, id);
    AgentsMake(id);
    TelemetryMakes(spec, id);
    PrometheusMakes(spec, id);
    ClickhouseMakes(cr.name, spec, id);
    KeepersMake(spec, id);
    ShardsMake(spec, id);
    hide RoleItems, AgentItems, TelemetryItems, PrometheusItems, ClickhouseItems, KeeperItems, ShardItems;
  }

  // So a pass leaves exactly these in the store, next to what was there.

  lemma {:induction false} LoopMakesOnly(t: Turn, claims: seq<ClaimId>, shared: Option<Annotations>, store: Store, key: Key)
    requires Live(store, key).None? && Live(DoClaims(t, claims, shared, store), key).Some?
    ensures exists c | c in claims :: key == KeyOf(t.cr, Volume(c))
  {
    hide KeyOf, DoClaims;
    if forall c | c in claims :: key != KeyOf(t.cr, Volume(c)) {
      DoClaimsFrame(t, claims, shared, store, key);
    }
  }

  lemma ItemMakesOnly(t: Turn, item: Item, store: Store, key: Key) returns (id: Id)
    requires Live(store, key).None? && Live(Do(t, item, store), key).Some?
    ensures Ensure(id) in Singles(item) && key == KeyOf(t.cr, id)
  {
    hide KeyOf, EnsuredAs;
    match item
    case Ensure(other) =>
      id := other;
      SinglesHave(item, id);
    case Claims(claims) =>
      LoopMakesOnly(t, claims, StorageFor(t.after, claims[0]).annotations, store, key);
      var c :| c in claims && key == KeyOf(t.cr, Volume(c));
      id := Volume(c);
      SinglesHave(item, id);
    case _ =>
  }

  /** Nothing comes into being but by an item that makes it. */
  lemma {:induction false} ItemsMakeOnly(t: Turn, items: seq<Item>, store: Store, key: Key) returns (id: Id)
    requires Live(store, key).None? && Live(DoAll(t, items, store), key).Some?
    ensures Makes(items, id) && key == KeyOf(t.cr, id)
    decreases |items|
  {
    hide KeyOf, Do, Singles;
    var front, last := items[..|items| - 1], items[|items| - 1];
    if Live(DoAll(t, front, store), key).Some? {
      id := ItemsMakeOnly(t, front, store, key);
    } else {
      id := ItemMakesOnly(t, last, DoAll(t, front, store), key);
    }
  }

  /** What an item removes and none makes is gone. */
  lemma {:induction false} ItemsRemove(t: Turn, items: seq<Item>, store: Store, id: Id)
    requires Remove(id) in items && !Makes(items, id)
    ensures Live(DoAll(t, items, store), KeyOf(t.cr, id)).None?
    decreases |items|
  {
    hide KeyOf, Do, Singles;
    var key := KeyOf(t.cr, id);
    var front, last := items[..|items| - 1], items[|items| - 1];
    assert items == front + [last];
    if last == Remove(id) {
      RemovedNow(t, id, DoAll(t, front, store));
    } else {
      ItemsRemove(t, front, store, id);
      if Live(DoAll(t, items, store), key).Some? {
        var made := ItemMakesOnly(t, last, DoAll(t, front, store), key);
        KeysDiffer(t.cr, id, made);
      }
    }
  }

  lemma RemovedNow(t: Turn, id: Id, store: Store)
    ensures Live(Do(t, Remove(id), store), KeyOf(t.cr, id)).None?
  {
  }

  lemma PlanHasRemoval(name: string, spec: TelemetrySpec, deleted: bool, id: Id)
    requires spec.agentsOnly.None? && ((id.OldDeployment? && !deleted) || (id.Route? && spec.ingress.None?))
    ensures Remove(id) in Plan(name, spec, deleted)
  {
    hide AgentItems, TelemetryItems, PrometheusItems, ClickhouseItems;
    assert id.OldDeployment? ==> OldDeploymentItems(deleted)[0] == Remove(id);
    assert id.Route? ==> RouteItems(spec)[0] == Remove(id);
  }

  lemma SplitWanted(cr: Cr, t: Turn, deleted: bool, id: Id)
    requires t.cr == cr && N.SameShape(cr.spec, t.after)
    ensures Makes(Wanted(cr, deleted), id) <==> Makes(RoleItems(), id) || Makes(Plan(cr.name, t.after, deleted), id)
  {
    hide Plan, Makes;
    PlanDependsOnShape(cr.name, cr.spec, t.after, deleted);
    MakesAppend(RoleItems(), Plan(cr.name, Capped(cr.spec), deleted), id);
  }

  lemma PassMakesOnly(u: Setup, c: Chance, cr: Cr, w: World, key: Key) returns (id: Id)
    requires OnlyFills(u.admit) && Orders(c, cr) && Counted(cr.spec) && !key.kind.Secret?
    requires Live(w.store, key).None? && Live(Pass(u, c, cr, w).store, key).Some?
    ensures Belongs(cr, id) && key == KeyOf(cr, id)
  {
    hide Validation, Plan, DoAll, Makes, Belongs, N.SameShape;
    var t := TurnOf(u, c, cr, w.store);
    TurnShape(u, c, cr, w.store);
    var plan, created := Plan(cr.name, t.after, w.deploymentDeleted), Validation(u, c, cr, w.store).0;
    SecretPhaseFrame(u, c, cr, w.store, key);
    if Live(created, key).None? {
      id := ItemsMakeOnly(t, plan, created, key);
    } else {
      id := ItemsMakeOnly(StartOf(u, c.generate, cr), RoleItems(), w.store, key);
    }
    SplitWanted(cr, t, w.deploymentDeleted, id);
    WantedIff(cr, w.deploymentDeleted, id);
  }

  lemma PassRemoves(u: Setup, c: Chance, cr: Cr, w: World, id: Id)
    requires OnlyFills(u.admit) && Orders(c, cr) && Counted(cr.spec) && cr.spec.agentsOnly.None?
    requires (id.OldDeployment? && !w.deploymentDeleted) || (id.Route? && cr.spec.ingress.None?)
    ensures Live(Pass(u, c, cr, w).store, KeyOf(cr, id)).None?
  {
    hide Validation, Plan, DoAll, Makes, KeyOf;
    var t := TurnOf(u, c, cr, w.store);
    TurnShape(u, c, cr, w.store);
    PlanHasRemoval(cr.name, t.after, w.deploymentDeleted, id);
    SplitWanted(cr, t, w.deploymentDeleted, id);
    WantedIff(cr, w.deploymentDeleted, id);
    ItemsRemove(t, Plan(cr.name, t.after, w.deploymentDeleted), Validation(u, c, cr, w.store).0, id);
  }

  lemma PassMakes(u: Setup, c: Chance, cr: Cr, w: World, id: Id)
    requires OnlyFills(u.admit) && Orders(c, cr) && NoRecords(cr.spec) && Counted(cr.spec)
    requires Belongs(cr, id) && !id.SecretOf?
    ensures Live(Pass(u, c, cr, w).store, KeyOf(cr, id)).Some?
  {
    hide Pass, Wanted, Expand, KeyOf, Belongs;
    WantedIff(cr, w.deploymentDeleted, id);
    C.EnsuredNotRemoved(cr, w.deploymentDeleted, w.deploymentDeleted, id);
    PassMakesReady(u, c, cr, w, id);
  }

  // Secrets.

  lemma {:induction false} WantKeysNames(wanted: map<string, seq<string>>, keys: seq<Credential>, n: string)
    ensures n in N.WantKeys(wanted, keys)
            <==> n in wanted || exists j | 0 <= j < |keys| :: keys[j].secret.Some? && keys[j].secret.value.name == n
    decreases |keys|
  {
    if keys != [] {
      var front := keys[..|keys| - 1];
      WantKeysNames(wanted, front, n);
      assert forall j | 0 <= j < |front| :: front[j] == keys[j];
    }
  }

  predicate KeyInProject(p: Project, n: string) {
    exists j | 0 <= j < |p.apiKeys| :: p.apiKeys[j].secret.Some? && p.apiKeys[j].secret.value.name == n
  }

  lemma {:induction false} WantProjectsNames(ps: seq<Project>, n: string)
    ensures n in N.WantProjects(map[], ps) <==> exists i | 0 <= i < |ps| :: KeyInProject(ps[i], n)
    decreases |ps|
  {
    if ps != [] {
      var front := ps[..|ps| - 1];
      WantProjectsNames(front, n);
      WantKeysNames(N.WantProjects(map[], front), ps[|ps| - 1].apiKeys, n);
      assert forall i | 0 <= i < |front| :: front[i] == ps[i];
      hide N.WantKeys;
    }
  }

  lemma KeepsApiKeyIff(spec: TelemetrySpec, n: string)
    ensures KeepsApiKey(spec, n) <==> n in N.WantProjects(map[], spec.projects)
  {
    WantProjectsNames(spec.projects, n);
    hide N.WantProjects;
    if KeepsApiKey(spec, n) {
      var i, j :| 0 <= i < |spec.projects| && 0 <= j < |spec.projects[i].apiKeys|
                  && spec.projects[i].apiKeys[j].secret.Some? && spec.projects[i].apiKeys[j].secret.value.name == n;
      assert KeyInProject(spec.projects[i], n);
    }
  }

  lemma SecretIff(u: Setup, c: Chance, cr: Cr, w: World, key: Key)
    requires OnlyFills(u.admit) && Orders(c, cr) && NoRecords(cr.spec) && Counted(cr.spec) && key.kind.Secret?
    ensures Live(Pass(u, c, cr, w).store, key).Some?
            <==> Live(w.store, key).Some? || (key.namespace == cr.namespace && Belongs(cr, SecretOf(key.name)))
  {
    hide Pass, KeepsApiKey, N.WantProjects;
    if key.namespace == cr.namespace {
      assert key == SecretKey(cr, key.name);
      PassOnSecret(u, c, cr, w, key.name);
      KeepsApiKeyIff(cr.spec, key.name);
    } else {
      PassOnForeignSecret(u, c, cr, w, key);
    }
  }

  /** After any pass, from any store, an object is there if and only if it belongs to the installation, or
      was there and is not one of the two a pass takes away. */
  lemma InstalledIff(u: Setup, c: Chance, cr: Cr, w: World, key: Key)
    requires OnlyFills(u.admit) && Orders(c, cr) && NoRecords(cr.spec) && Counted(cr.spec)
    ensures key in Pass(u, c, cr, w).store
            <==> || (exists id :: Belongs(cr, id) && key == KeyOf(cr, id))
                 || (key in w.store && !Removes(cr, w.deploymentDeleted, key))
  {
    if key.kind.Secret? {
      SecretIff(u, c, cr, w, key);
      SecretBelongs(cr, w.deploymentDeleted, key);
    } else {
      OtherIff(u, c, cr, w, key);
    }
  }

  lemma SecretBelongs(cr: Cr, deleted: bool, key: Key)
    requires key.kind.Secret?
    ensures (exists id :: Belongs(cr, id) && key == KeyOf(cr, id))
            <==> key.namespace == cr.namespace && Belongs(cr, SecretOf(key.name))
    ensures !Removes(cr, deleted, key)
  {
    hide Belongs;
    if key.namespace == cr.namespace && Belongs(cr, SecretOf(key.name)) {
      assert key == KeyOf(cr, SecretOf(key.name));
    }
  }

  /** Nothing that belongs is taken away. */
  lemma BelongsStays(cr: Cr, deleted: bool, id: Id)
    requires Belongs(cr, id)
    ensures !Removes(cr, deleted, KeyOf(cr, id))
  {
    hide KeyOf;
    if Removes(cr, deleted, KeyOf(cr, id)) {
      var removed := WhichRemoved(cr, deleted, KeyOf(cr, id));
      KeysDiffer(cr, id, removed);
    }
  }

  lemma OtherIff(u: Setup, c: Chance, cr: Cr, w: World, key: Key)
    requires OnlyFills(u.admit) && Orders(c, cr) && NoRecords(cr.spec) && Counted(cr.spec) && !key.kind.Secret?
    ensures key in Pass(u, c, cr, w).store
            <==> || (exists id :: Belongs(cr, id) && key == KeyOf(cr, id))
                 || (key in w.store && !Removes(cr, w.deploymentDeleted, key))
  {
    hide Pass, Orders, KeyOf, Belongs, Removes;
    if id :| Belongs(cr, id) && key == KeyOf(cr, id) {
      SecretsAreSecret(cr, id);
      PassMakes(u, c, cr, w, id);
    } else if key in w.store {
      if Removes(cr, w.deploymentDeleted, key) {
        var id := WhichRemoved(cr, w.deploymentDeleted, key);
        PassRemoves(u, c, cr, w, id);
      } else {
        PassKeepsLive(u, c, cr, w, key);
      }
    } else if key in Pass(u, c, cr, w).store {
      var id := PassMakesOnly(u, c, cr, w, key);
    }
  }

  lemma SecretsAreSecret(cr: Cr, id: Id)
    ensures KeyOf(cr, id).kind.Secret? <==> id.SecretOf?
  {
  }

  lemma WhichRemoved(cr: Cr, deleted: bool, key: Key) returns (id: Id)
    requires Removes(cr, deleted, key)
    ensures key == KeyOf(cr, id) && cr.spec.agentsOnly.None?
    ensures (id.OldDeployment? && !deleted) || (id.Route? && cr.spec.ingress.None?)
  {
    id := if key == KeyOf(cr, OldDeployment) && !deleted then OldDeployment else Route;
  }

  /** The first full pass of the process is the last that looks for the old deployment. */
  lemma PassSetsFlag(u: Setup, c: Chance, cr: Cr, w: World)
    requires OnlyFills(u.admit) && Orders(c, cr) && Counted(cr.spec)
    ensures Pass(u, c, cr, w).deploymentDeleted <==> w.deploymentDeleted || cr.spec.agentsOnly.None?
  {
    hide DoAll, Plan, Validation, N.SameShape;
    TurnShape(u, c, cr, w.store);
    SameMode(cr.spec, TurnOf(u, c, cr, w.store).after);
  }

  lemma SameMode(spec: TelemetrySpec, after: TelemetrySpec)
    requires N.SameShape(spec, after)
    ensures after.agentsOnly == spec.agentsOnly
  {
  }
}
