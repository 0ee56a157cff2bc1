/** What one pass does to the store, key by key. */
module Passes {
  import opened Trees
  import opened LastApplied
  import opened Naming
  import opened Topology
  import opened Spec
  import opened Validate
  import opened Objects
  import opened Inventory
  import opened Reconcile
  import opened SecretsInPass
  import opened Settling
  import N = Normalised

  // What plans have in common.

  predicate OfOneKind(claims: seq<ClaimId>) {
    forall c | c in claims ::
      && (c.Telemetry? <==> claims[0].Telemetry?) && (c.Shard? <==> claims[0].Shard?)
      && (c.Keeper? <==> claims[0].Keeper?)
  }

  predicate Sound(name: string, spec: TelemetrySpec, deleted: bool, item: Item) {
    match item
    case Remove(id) => (id.OldDeployment? && !deleted) || (id.Route? && spec.ingress.None?)
    case Ensure(id) =>
      && !id.OldDeployment? && !id.Volume?
      && (id.Route? ==> spec.ingress.Some?)
      && (id.SecretOf? ==> id == PasswordSecret(name) && HasPassword(spec))
    case Claims(claims) => OfOneKind(claims)
  }

  predicate HasPassword(spec: TelemetrySpec) { spec.agentsOnly.None? && !spec.externalClickhouse }

  predicate AllSound(name: string, spec: TelemetrySpec, deleted: bool, items: seq<Item>) {
    forall i | 0 <= i < |items| :: Sound(name, spec, deleted, items[i])
  }

  lemma {:induction false} ShardClaimsAreShards(shards: nat, replicas: nat)
    ensures forall c | c in ShardClaims(shards, replicas) :: c.Shard?
  {
    if shards > 0 {
      ShardClaimsAreShards(shards - 1, replicas);
    }
  }

  lemma KeeperClaimsAreKeepers(spec: TelemetrySpec)
    ensures forall c | c in KeeperClaims(spec) :: c.Keeper?
  {
  }

  lemma KeeperItemsSound(name: string, spec: TelemetrySpec, deleted: bool)
    ensures AllSound(name, spec, deleted, KeeperItems(spec))
  {
    KeeperClaimsAreKeepers(spec);
    hide KeeperClaims;
    assert KeeperClaims(spec) != [] ==> KeeperClaims(spec)[0] in KeeperClaims(spec);
    assert Sound(name, spec, deleted, Claims(KeeperClaims(spec)));
  }

  lemma ShardItemsSound(name: string, spec: TelemetrySpec, deleted: bool)
    ensures AllSound(name, spec, deleted, ShardItems(spec))
  {
    ShardClaimsAreShards(Count(OrOne(spec.clickhouse.shards)), Count(OrOne(spec.clickhouse.replicas)));
    hide ShardClaims;
    assert ClickhouseClaims(spec) != [] ==> ClickhouseClaims(spec)[0] in ClickhouseClaims(spec);
    assert Sound(name, spec, deleted, Claims(ClickhouseClaims(spec)));
  }

  lemma SoundAppend(name: string, spec: TelemetrySpec, deleted: bool, a: seq<Item>, b: seq<Item>)
    requires AllSound(name, spec, deleted, a) && AllSound(name, spec, deleted, b)
    ensures AllSound(name, spec, deleted, a + b)
  {
  }

  lemma ClickhouseItemsSound(name: string, spec: TelemetrySpec, deleted: bool)
    requires spec.agentsOnly.None?
    ensures AllSound(name, spec, deleted, ClickhouseItems(name, spec))
  {
    hide KeeperItems, ShardItems;
    if !spec.externalClickhouse {
      KeeperItemsSound(name, spec, deleted);
      ShardItemsSound(name, spec, deleted);
      assert Sound(name, spec, deleted, Ensure(PasswordSecret(name)));
      SoundAppend(name, spec, deleted, [Ensure(PasswordSecret(name))], KeeperItems(spec));
      SoundAppend(name, spec, deleted, [Ensure(PasswordSecret(name))] + KeeperItems(spec), ShardItems(spec));
    }
  }

  lemma SmallItemsSound(name: string, spec: TelemetrySpec, deleted: bool)
    ensures AllSound(name, spec, deleted, RoleItems()) && AllSound(name, spec, deleted, AgentItems())
    ensures AllSound(name, spec, deleted, TelemetryItems(spec)) && AllSound(name, spec, deleted, PrometheusItems(spec))
    ensures AllSound(name, spec, deleted, OldDeploymentItems(deleted)) && AllSound(name, spec, deleted, RouteItems(spec))
  {
    assert Sound(name, spec, deleted, Claims(TelemetryClaims(spec)));
  }

  lemma PlanIsSound(name: string, spec: TelemetrySpec, deleted: bool)
    ensures AllSound(name, spec, deleted, Plan(name, spec, deleted))
  {
    SmallItemsSound(name, spec, deleted);
    if spec.agentsOnly.None? {
      ClickhouseItemsSound(name, spec, deleted);
      var a := TelemetryItems(spec) + OldDeploymentItems(deleted);
      var b := a + RouteItems(spec);
      var c := b + PrometheusItems(spec);
      SoundAppend(name, spec, deleted, b, PrometheusItems(spec));
      SoundAppend(name, spec, deleted, c, ClickhouseItems(name, spec));
      SoundAppend(name, spec, deleted, AgentItems(), c + ClickhouseItems(name, spec));
    } else {
      assert Plan(name, spec, deleted) == AgentItems();
    }
  }

  /** The spec with the replica count validation would leave. */
  function Capped(spec: TelemetrySpec): TelemetrySpec {
    if spec.replicas > 1 && !spec.postgres then spec.(replicas := 1) else spec
  }

  /** The plan hangs on the spec alone, not on what validation could resolve. */
  lemma PlanDependsOnShape(name: string, spec: TelemetrySpec, after: TelemetrySpec, deleted: bool)
    requires N.SameShape(spec, after)
    ensures Plan(name, after, deleted) == Plan(name, Capped(spec), deleted)
  {
    assert after.clickhouse.(s3 := None).shards == spec.clickhouse.(s3 := None).shards;
    assert after.clickhouse.(s3 := None).replicas == spec.clickhouse.(s3 := None).replicas;
    assert after.clickhouse.(s3 := None).keeperReplicas == spec.clickhouse.(s3 := None).keeperReplicas;
  }

  predicate NoRecordIn(annotations: Option<Annotations>) { annotations.Some? ==> LAST_APPLIED !in annotations.value }

  /** Nobody asks for the operator's own bookkeeping annotation. */
  predicate NoRecords(spec: TelemetrySpec) {
    && NoRecordIn(spec.storage.annotations) && NoRecordIn(spec.prometheusStorage.annotations)
    && NoRecordIn(spec.clickhouse.storage.annotations) && NoRecordIn(spec.clickhouse.keeperStorage.annotations)
    && LAST_APPLIED !in spec.service.annotations
    && (spec.ingress.Some? ==> LAST_APPLIED !in spec.ingress.value.annotations)
  }

  lemma NoRecordsInShape(spec: TelemetrySpec, after: TelemetrySpec)
    requires NoRecords(spec) && N.SameShape(spec, after)
    ensures NoRecords(after)
  {
    assert after.clickhouse.(s3 := None).storage == after.clickhouse.storage;
    assert after.clickhouse.(s3 := None).keeperStorage == after.clickhouse.keeperStorage;
  }

  lemma SoundItems(t: Turn, deleted: bool, items: seq<Item>)
    requires AllSound(t.cr.name, t.after, deleted, items) && NoRecords(t.after)
    ensures ReadableItems(t, items) && UniformItems(t, items) && NoClaimRemoved(items)
  {
    forall i | 0 <= i < |items| && items[i].Claims? && items[i].claims != []
      ensures Uniform(t, items[i].claims, StorageFor(t.after, items[i].claims[0]).annotations)
    {
      assert Sound(t.cr.name, t.after, deleted, items[i]);
    }
  }

  // One pass, key by key.

  lemma RolesAlike(t: Turn, u: Turn, store: Store)
    requires t.setup == u.setup && t.cr == u.cr && t.generate == u.generate
    ensures DoAll(t, RoleItems(), store) == DoAll(u, RoleItems(), store)
  {
    var first := Ensure(SccRole(false));
    assert RoleItems()[..1] == [first];
    DoAllOne(t, first, store);
    DoAllOne(u, first, store);
  }

  lemma SecretPhaseFrame(u: Setup, c: Chance, cr: Cr, store: Store, key: Key)
    requires OnlyFills(u.admit) && Orders(c, cr) && !key.kind.Secret?
    ensures Live(Validation(u, c, cr, store).0, key) == Live(WithRoles(u, c.generate, cr, store), key)
  {
    var ready := WithRoles(u, c.generate, cr, store);
    N.WantedDependsOnSpecOnly(ContextIn(u, cr, ready), cr.spec, c.generate);
    WantedInOrder(c, cr);
    CreateOthers(StartOf(u, c.generate, cr), N.WantProjects(map[], cr.spec.projects), c.order, ready, key);
  }

  /** All a pass ensures or removes, its API key secrets aside. */
  function Items(t: Turn, deleted: bool): seq<Item> { RoleItems() + Plan(t.cr.name, t.after, deleted) }

  /** The same, read off the resource. */
  function Wanted(cr: Cr, deleted: bool): seq<Item> { RoleItems() + Plan(cr.name, Capped(cr.spec), deleted) }

  lemma ItemsAreWanted(t: Turn, deleted: bool)
    requires N.SameShape(t.cr.spec, t.after)
    ensures Items(t, deleted) == Wanted(t.cr, deleted)
  {
    PlanDependsOnShape(t.cr.name, t.cr.spec, t.after, deleted);
  }

  lemma ItemsAreSound(t: Turn, deleted: bool)
    ensures AllSound(t.cr.name, t.after, deleted, Items(t, deleted))
  {
    PlanIsSound(t.cr.name, t.after, deleted);
    SmallItemsSound(t.cr.name, t.after, deleted);
    SoundAppend(t.cr.name, t.after, deleted, RoleItems(), Plan(t.cr.name, t.after, deleted));
  }

  lemma TurnFacts(u: Setup, c: Chance, cr: Cr, store: Store)
    requires OnlyFills(u.admit) && Orders(c, cr) && NoRecords(cr.spec)
    ensures var t := TurnOf(u, c, cr, store);
            && t.setup == u && t.cr == cr && t.generate == c.generate
            && N.SameShape(cr.spec, t.after) && NoRecords(t.after)
  {
    ValidationNormalises(u, c, cr, store);
    NoRecordsInShape(cr.spec, TurnOf(u, c, cr, store).after);
  }

  lemma NoRecordFor(t: Turn, id: Id)
    requires NoRecords(t.after)
    ensures NoRecord(t, id)
  {
  }

  lemma RolesExpand()
    ensures Expand(RoleItems()) == RoleItems()
  {
    assert RoleItems()[..1] == [Ensure(SccRole(false))];
    assert [Ensure(SccRole(false))][..0] == [];
    assert Expand([Ensure(SccRole(false))]) == [Ensure(SccRole(false))];
  }

  lemma PlanFacts(t: Turn, deleted: bool)
    requires NoRecords(t.after)
    ensures var plan := Plan(t.cr.name, t.after, deleted);
            ReadableItems(t, plan) && UniformItems(t, plan) && NoClaimRemoved(plan)
  {
    PlanIsSound(t.cr.name, t.after, deleted);
    SoundItems(t, deleted, Plan(t.cr.name, t.after, deleted));
  }

  lemma PlanMakesReady(t: Turn, deleted: bool, store: Store, id: Id)
    requires NoRecords(t.after)
    requires var plan := Plan(t.cr.name, t.after, deleted); Ensure(id) in Expand(plan) && Remove(id) !in plan
    ensures Ready(t, id, Live(DoAll(t, Plan(t.cr.name, t.after, deleted), store), KeyOf(t.cr, id)))
  {
    PlanFacts(t, deleted);
    NoRecordFor(t, id);
    MakesReady(t, Plan(t.cr.name, t.after, deleted), store, id);
  }

  lemma PlanKeepsReady(t: Turn, deleted: bool, store: Store, id: Id)
    requires NoRecords(t.after) && Remove(id) !in Plan(t.cr.name, t.after, deleted)
    requires Ready(t, id, Live(store, KeyOf(t.cr, id)))
    ensures Ready(t, id, Live(DoAll(t, Plan(t.cr.name, t.after, deleted), store), KeyOf(t.cr, id)))
  {
    PlanFacts(t, deleted);
    ReadyStays(t, Plan(t.cr.name, t.after, deleted), store, id);
  }

  lemma RolesMakeReady(t: Turn, store: Store, id: Id)
    requires NoRecords(t.after) && Ensure(id) in Expand(RoleItems())
    ensures !KeyOf(t.cr, id).kind.Secret?
    ensures Ready(t, id, Live(DoAll(t, RoleItems(), store), KeyOf(t.cr, id)))
  {
    RolesExpand();
    NoRecordFor(t, id);
    MakesReady(t, RoleItems(), store, id);
  }

  lemma ItemsExpand(t: Turn, deleted: bool)
    ensures Expand(Items(t, deleted)) == Expand(RoleItems()) + Expand(Plan(t.cr.name, t.after, deleted))
  {
    ExpandAppend(RoleItems(), Plan(t.cr.name, t.after, deleted));
  }

  /** After any pass everything it wants is there, and one more application settles it. */
  lemma PassMakesReady(u: Setup, c: Chance, cr: Cr, w: World, id: Id)
    requires OnlyFills(u.admit) && Orders(c, cr) && NoRecords(cr.spec) && Counted(cr.spec)
    requires Ensure(id) in Expand(Wanted(cr, w.deploymentDeleted)) && Remove(id) !in Wanted(cr, w.deploymentDeleted)
    ensures Ready(TurnOf(u, c, cr, w.store), id, Live(Pass(u, c, cr, w).store, KeyOf(cr, id)))
  {
    hide BeforeSecrets, AfterSecrets, CreateSecrets, DoAll, Expand, Plan, Ready;
    var t := TurnOf(u, c, cr, w.store);
    TurnFacts(u, c, cr, w.store);
    ItemsAreWanted(t, w.deploymentDeleted);
    ItemsExpand(t, w.deploymentDeleted);
    var created := Validation(u, c, cr, w.store).0;
    if Ensure(id) in Expand(Plan(cr.name, t.after, w.deploymentDeleted)) {
      PlanMakesReady(t, w.deploymentDeleted, created, id);
    } else {
      RolesAlike(StartOf(u, c.generate, cr), t, w.store);
      RolesMakeReady(t, w.store, id);
      SecretPhaseFrame(u, c, cr, w.store, KeyOf(cr, id));
      PlanKeepsReady(t, w.deploymentDeleted, created, id);
    }
  }

  /** With the claims in place, a pass is its items one by one, as far as all but secrets go. */
  lemma PassIsFlat(u: Setup, c: Chance, cr: Cr, w: World, key: Key)
    requires OnlyFills(u.admit) && Orders(c, cr) && NoRecords(cr.spec) && Counted(cr.spec)
    requires !key.kind.Secret?
    requires ClaimsLive(cr, Wanted(cr, w.deploymentDeleted), w.store)
    ensures var t := TurnOf(u, c, cr, w.store);
            Live(Pass(u, c, cr, w).store, key) == Live(DoAll(t, Expand(Wanted(cr, w.deploymentDeleted)), w.store), key)
  {
    var t := TurnOf(u, c, cr, w.store);
    var plan := Plan(cr.name, t.after, w.deploymentDeleted);
    var ready, created := WithRoles(u, c.generate, cr, w.store), Validation(u, c, cr, w.store).0;
    TurnFacts(u, c, cr, w.store);
    ItemsAreWanted(t, w.deploymentDeleted);
    ItemsAreSound(t, w.deploymentDeleted);
    SoundItems(t, w.deploymentDeleted, Items(t, w.deploymentDeleted));
    PlanIsSound(cr.name, t.after, w.deploymentDeleted);
    SoundItems(t, w.deploymentDeleted, plan);
    RolesAlike(StartOf(u, c.generate, cr), t, w.store);
    ClaimsStayLive(u, c, cr, w);
    ExpandSame(t, plan, created);
    ExpandIsFlat(plan);
    SecretPhaseFrame(u, c, cr, w.store, key);
    Pointwise(t, Expand(plan), created, ready, key);
    RolesExpand();
    ExpandAppend(RoleItems(), plan);
    DoAllAppend(t, RoleItems(), Expand(plan), w.store);
  }

  lemma ClaimStaysLive(u: Setup, c: Chance, cr: Cr, store: Store, claim: ClaimId)
    requires OnlyFills(u.admit) && Orders(c, cr)
    requires Live(store, KeyOf(cr, Volume(claim))).Some?
    ensures Live(Validation(u, c, cr, store).0, KeyOf(cr, Volume(claim))).Some?
  {
    ReadyStays(StartOf(u, c.generate, cr), RoleItems(), store, Volume(claim));
    SecretPhaseFrame(u, c, cr, store, KeyOf(cr, Volume(claim)));
  }

  lemma ClaimsStayLive(u: Setup, c: Chance, cr: Cr, w: World)
    requires OnlyFills(u.admit) && Orders(c, cr) && NoRecords(cr.spec)
    requires ClaimsLive(cr, Wanted(cr, w.deploymentDeleted), w.store)
    ensures ClaimsLive(cr, Plan(cr.name, TurnOf(u, c, cr, w.store).after, w.deploymentDeleted), Validation(u, c, cr, w.store).0)
  {
    hide Validation, Plan, Expand, Items;
    TurnFacts(u, c, cr, w.store);
    ItemsAreWanted(TurnOf(u, c, cr, w.store), w.deploymentDeleted);
    var plan := Plan(cr.name, TurnOf(u, c, cr, w.store).after, w.deploymentDeleted);
    ItemsExpand(TurnOf(u, c, cr, w.store), w.deploymentDeleted);
    forall claim: ClaimId | Ensure(Volume(claim)) in Expand(plan)
      ensures Live(Validation(u, c, cr, w.store).0, KeyOf(cr, Volume(claim))).Some?
    {
      ClaimStaysLive(u, c, cr, w.store, claim);
    }
  }

  // The secrets.

  lemma ItemOnSecret(t: Turn, item: Item, store: Store, key: Key)
    requires OnlyFills(t.setup.admit) && key.kind.Secret? && (item.Remove? ==> !item.id.SecretOf?)
    ensures Live(Do(t, item, store), key)
            == if key == SecretKey(t.cr, key.name) && item == Ensure(SecretOf(key.name))
               then Some(SecretAfter(Live(store, key), key.name, ["password"], OwnerOf(t.cr), false, t.generate))
               else Live(store, key)
  {
    if item.Ensure? && key == KeyOf(t.cr, item.id) {
      KeysDiffer(t.cr, item.id, SecretOf(key.name));
      SecretEnsured(t, key, ["password"], false, Live(store, key));
    } else {
      DoFrame(t, item, store, key);
    }
  }

  lemma {:induction false} ItemsOnSecret(t: Turn, items: seq<Item>, store: Store, key: Key)
    requires OnlyFills(t.setup.admit) && key.kind.Secret?
    requires forall i | 0 <= i < |items| :: items[i].Remove? ==> !items[i].id.SecretOf?
    ensures Live(DoAll(t, items, store), key)
            == if key == SecretKey(t.cr, key.name) && Ensure(SecretOf(key.name)) in items
               then Some(SecretAfter(Live(store, key), key.name, ["password"], OwnerOf(t.cr), false, t.generate))
               else Live(store, key)
    decreases |items|
  {
    hide Do, SecretAfter;
    if items != [] {
      var front, last := items[..|items| - 1], items[|items| - 1];
      assert items == front + [last];
      ItemsOnSecret(t, front, store, key);
      ItemOnSecret(t, last, DoAll(t, front, store), key);
      SecretAgain(Live(store, key), key.name, ["password"], OwnerOf(t.cr), false, t.generate, t.generate);
    }
  }

  lemma PasswordInPlan(name: string, spec: TelemetrySpec, deleted: bool, n: string)
    ensures Ensure(SecretOf(n)) in Plan(name, spec, deleted) <==> n == name + "-clickhouse" && HasPassword(spec)
  {
    PlanIsSound(name, spec, deleted);
    var plan := Plan(name, spec, deleted);
    if Ensure(SecretOf(n)) in plan {
      var i :| 0 <= i < |plan| && plan[i] == Ensure(SecretOf(n));
      assert Sound(name, spec, deleted, plan[i]);
    }
    if HasPassword(spec) {
      assert ClickhouseItems(name, spec)[0] == Ensure(PasswordSecret(name));
      assert Ensure(PasswordSecret(name)) in plan;
    }
  }

  /** What one pass does to one secret. */
  function KeyPass(cr: Cr, g: Generator, n: string, o: Option<Resource>): Option<Resource> {
    var created := CreatedPass(cr, g, n, o);
    if n == cr.name + "-clickhouse" && HasPassword(cr.spec)
    then Some(SecretAfter(created, n, ["password"], OwnerOf(cr), false, g)) else created
  }

  lemma KeyPassTwice(cr: Cr, g: Generator, g': Generator, n: string, o: Option<Resource>)
    ensures KeyPass(cr, g', n, KeyPass(cr, g, n, o)) == KeyPass(cr, g, n, o)
  {
    var wanted := N.WantProjects(map[], cr.spec.projects);
    var once := KeyPass(cr, g, n, o);
    if n in wanted {
      AddKeysOnTop(once.value.data, n, wanted[n], g');
    }
    AddKeysOnTop(if once.Some? then once.value.data else map["password" := ""], n, ["password"], g');
  }

  lemma AddKeysOnTop(data: map<string, string>, n: string, keys: seq<string>, g: Generator)
    ensures (forall k | k in keys :: k in data) ==> AddKeys(data, n, keys, g) == data
  {
    if forall k | k in keys :: k in data {
      assert (map k | k in keys && k !in data :: g(n, k)) == map[];
    }
  }

  lemma CreatedFrom(u: Setup, c: Chance, cr: Cr, store: Store)
    requires Orders(c, cr)
    ensures var wanted := N.WantProjects(map[], cr.spec.projects);
            && (forall n: string :: n in c.order <==> n in wanted)
            && Validation(u, c, cr, store).0
               == CreateSecrets(StartOf(u, c.generate, cr), wanted, c.order, WithRoles(u, c.generate, cr, store))
  {
    hide DoAll, BeforeSecrets, AfterSecrets, CreateSecrets, Normalise, N.WantProjects;
    N.WantedDependsOnSpecOnly(ContextIn(u, cr, WithRoles(u, c.generate, cr, store)), cr.spec, c.generate);
    WantedInOrder(c, cr);
  }

  function CreatedPass(cr: Cr, g: Generator, n: string, o: Option<Resource>): Option<Resource> {
    var wanted := N.WantProjects(map[], cr.spec.projects);
    if n in wanted then Some(SecretAfter(o, n, wanted[n], OwnerOf(cr), true, g)) else o
  }

  lemma CreatedAt(t: Turn, wanted: map<string, seq<string>>, order: seq<string>, store: Store, n: string)
    requires OnlyFills(t.setup.admit) && forall m: string :: m in order <==> m in wanted
    ensures var o := Live(store, SecretKey(t.cr, n));
            Live(CreateSecrets(t, wanted, order, store), SecretKey(t.cr, n))
            == if n in wanted then Some(SecretAfter(o, n, wanted[n], OwnerOf(t.cr), true, t.generate)) else o
  {
    if n in wanted {
      CreateWanted(t, wanted, order, store, n);
    } else {
      CreateOthers(t, wanted, order, store, SecretKey(t.cr, n));
    }
  }

  lemma RolesOnSecret(u: Setup, g: Generator, cr: Cr, store: Store, key: Key)
    requires OnlyFills(u.admit) && key.kind.Secret?
    ensures Live(WithRoles(u, g, cr, store), key) == Live(store, key)
  {
    ItemsOnSecret(StartOf(u, g, cr), RoleItems(), store, key);
  }

  /** Validation in a pass is validation against the secrets there are before it. */
  lemma ValidationIs(u: Setup, c: Chance, cr: Cr, store: Store)
    requires OnlyFills(u.admit) && Orders(c, cr)
    ensures var (_, after, log) := Validation(u, c, cr, store);
            (after, log) == Normalise(Context(SecretsOf(cr, store), u.crc, u.samlValid), cr.spec, c.generate)
  {
    hide Validation, Normalise, WithRoles, SecretsOf, Orders, N.SameShape;
    var ready := WithRoles(u, c.generate, cr, store);
    forall n: string ensures Live(ready, SecretKey(cr, n)) == Live(store, SecretKey(cr, n)) {
      RolesOnSecret(u, c.generate, cr, store, SecretKey(cr, n));
    }
    SameSecrets(cr, ready, store);
    ValidationNormalises(u, c, cr, store);
  }

  lemma CreatedOnSecret(u: Setup, c: Chance, cr: Cr, store: Store, n: string)
    requires OnlyFills(u.admit) && Orders(c, cr)
    ensures Live(Validation(u, c, cr, store).0, SecretKey(cr, n))
            == CreatedPass(cr, c.generate, n, Live(store, SecretKey(cr, n)))
  {
    CreatedFrom(u, c, cr, store);
    CreatedAt(StartOf(u, c.generate, cr), N.WantProjects(map[], cr.spec.projects), c.order,
              WithRoles(u, c.generate, cr, store), n);
    RolesOnSecret(u, c.generate, cr, store, SecretKey(cr, n));
  }

  lemma PasswordWanted(spec: TelemetrySpec, after: TelemetrySpec)
    requires N.SameShape(spec, after)
    ensures HasPassword(spec) <==> HasPassword(after)
  {
  }

  lemma PassOnSecret(u: Setup, c: Chance, cr: Cr, w: World, n: string)
    requires OnlyFills(u.admit) && Orders(c, cr) && NoRecords(cr.spec) && Counted(cr.spec)
    ensures Live(Pass(u, c, cr, w).store, SecretKey(cr, n)) == KeyPass(cr, c.generate, n, Live(w.store, SecretKey(cr, n)))
  {
    hide DoAll, BeforeSecrets, AfterSecrets, Plan, CreateSecrets, KeyOf;
    TurnFacts(u, c, cr, w.store);
    CreatedOnSecret(u, c, cr, w.store, n);
    PlanPasses(TurnOf(u, c, cr, w.store), w.deploymentDeleted, Validation(u, c, cr, w.store).0, n);
  }

  lemma PlanPasses(t: Turn, deleted: bool, store: Store, n: string)
    requires OnlyFills(t.setup.admit) && N.SameShape(t.cr.spec, t.after)
    ensures var o := Live(store, SecretKey(t.cr, n));
            Live(DoAll(t, Plan(t.cr.name, t.after, deleted), store), SecretKey(t.cr, n))
            == if n == t.cr.name + "-clickhouse" && HasPassword(t.cr.spec)
               then Some(SecretAfter(o, n, ["password"], OwnerOf(t.cr), false, t.generate)) else o
  {
    PlanOnSecret(t, deleted, store, SecretKey(t.cr, n));
    PasswordInPlan(t.cr.name, t.after, deleted, n);
    PasswordWanted(t.cr.spec, t.after);
  }

  lemma PlanOnSecret(t: Turn, deleted: bool, store: Store, key: Key)
    requires OnlyFills(t.setup.admit) && key.kind.Secret?
    ensures Live(DoAll(t, Plan(t.cr.name, t.after, deleted), store), key)
            == if key == SecretKey(t.cr, key.name) && Ensure(SecretOf(key.name)) in Plan(t.cr.name, t.after, deleted)
               then Some(SecretAfter(Live(store, key), key.name, ["password"], OwnerOf(t.cr), false, t.generate))
               else Live(store, key)
  {
    PlanIsSound(t.cr.name, t.after, deleted);
    ItemsOnSecret(t, Plan(t.cr.name, t.after, deleted), store, key);
  }

  lemma PassOnForeignSecret(u: Setup, c: Chance, cr: Cr, w: World, key: Key)
    requires OnlyFills(u.admit) && Orders(c, cr) && Counted(cr.spec)
    requires key.kind.Secret? && key.namespace != cr.namespace
    ensures Live(Pass(u, c, cr, w).store, key) == Live(w.store, key)
  {
    hide DoAll, BeforeSecrets, AfterSecrets, Plan, CreateSecrets;
    var ready := WithRoles(u, c.generate, cr, w.store);
    N.WantedDependsOnSpecOnly(ContextIn(u, cr, ready), cr.spec, c.generate);
    WantedInOrder(c, cr);
    ItemsOnSecret(StartOf(u, c.generate, cr), RoleItems(), w.store, key);
    CreateOthers(StartOf(u, c.generate, cr), N.WantProjects(map[], cr.spec.projects), c.order, ready, key);
    PlanOnSecret(TurnOf(u, c, cr, w.store), w.deploymentDeleted, Validation(u, c, cr, w.store).0, key);
  }

  /** Secrets are as they stay after one pass, even one that validation and ClickHouse both claim. */
  lemma SecretsSettle(u: Setup, c1: Chance, c2: Chance, cr: Cr, w: World, key: Key)
    requires OnlyFills(u.admit) && Orders(c1, cr) && Orders(c2, cr) && NoRecords(cr.spec) && Counted(cr.spec)
    requires key.kind.Secret?
    ensures Live(Pass(u, c2, cr, Pass(u, c1, cr, w)).store, key) == Live(Pass(u, c1, cr, w).store, key)
  {
    var w1 := Pass(u, c1, cr, w);
    if key.namespace == cr.namespace {
      assert key == SecretKey(cr, key.name);
      PassOnSecret(u, c1, cr, w, key.name);
      PassOnSecret(u, c2, cr, w1, key.name);
      KeyPassTwice(cr, c1.generate, c2.generate, key.name, Live(w.store, key));
    } else {
      PassOnForeignSecret(u, c1, cr, w, key);
      PassOnForeignSecret(u, c2, cr, w1, key);
    }
  }
}
