/** Which claims have their annotations after one pass, and after two. */
module AnnotatedPasses {
  import opened Trees
  import opened LastApplied
  import opened Naming
  import opened Topology
  import opened Spec
  import opened Validate
  import opened Objects
  import opened Inventory
  import opened Reconcile
  import opened Settling
  import opened Passes
  import opened ClaimAnnotations
  import M = MergeSpecs
  import N = Normalised

  // A plan has one loop for each component with claims.

  function LoopKind(c: ClaimId): nat {
    match c
    case Telemetry(_) => 0
    case Shard(_, _) => 1
    case Keeper(_) => 2
    case Prometheus => 3
  }

  predicate IsLoop(item: Item) { item.Claims? && item.claims != [] }

  function KindOfLoop(item: Item): nat
    requires IsLoop(item)
  {
    LoopKind(item.claims[0])
  }

  /** The loops among the items have different claims each, and are of different kinds, all among kinds. */
  predicate Orderly(items: seq<Item>, kinds: set<nat>) {
    && (forall i | 0 <= i < |items| && IsLoop(items[i]) :: KindOfLoop(items[i]) in kinds && Distinct(items[i].claims))
    && (forall i, j | 0 <= i < j < |items| && IsLoop(items[i]) && IsLoop(items[j]) :: KindOfLoop(items[i]) != KindOfLoop(items[j]))
  }

  lemma OrderlyAppend(a: seq<Item>, ka: set<nat>, b: seq<Item>, kb: set<nat>)
    requires Orderly(a, ka) && Orderly(b, kb) && ka !! kb
    ensures Orderly(a + b, ka + kb)
  {
    hide Distinct;
  }

  lemma NoLoops(items: seq<Item>)
    requires forall i | 0 <= i < |items| :: !items[i].Claims?
    ensures Orderly(items, {})
  {
  }

  lemma OneLoop(front: seq<Item>, claims: seq<ClaimId>, back: seq<Item>, kind: nat)
    requires forall i | 0 <= i < |front| :: !front[i].Claims?
    requires forall i | 0 <= i < |back| :: !back[i].Claims?
    requires Distinct(claims) && (claims != [] ==> LoopKind(claims[0]) == kind)
    ensures Orderly(front + [Claims(claims)] + back, {kind})
  {
    hide Distinct;
    NoLoops(front);
    NoLoops(back);
    assert Orderly([Claims(claims)], {kind});
    OrderlyAppend(front, {}, [Claims(claims)], {kind});
    OrderlyAppend(front + [Claims(claims)], {} + {kind}, back, {});
    assert {} + {kind} + {} == {kind};
  }

  lemma TelemetryOrderly(spec: TelemetrySpec)
    ensures Orderly(TelemetryItems(spec), {0})
  {
    LoopsAreDistinct(spec);
    OneLoop(AccountItems(Telemetries), TelemetryClaims(spec), TelemetrySetItems(), 0);
  }

  lemma PrometheusOrderly(spec: TelemetrySpec)
    ensures Orderly(PrometheusItems(spec), {3})
  {
    if !(spec.externalPrometheus || spec.storeMetricsInClickhouse) {
      OneLoop(AccountItems(Prometheuses), [Prometheus], [Ensure(PrometheusServer), Ensure(PrometheusService)], 3);
      assert PrometheusItems(spec)
             == AccountItems(Prometheuses) + [Claims([Prometheus])] + [Ensure(PrometheusServer), Ensure(PrometheusService)];
    }
  }

  lemma KeepersOrderly(spec: TelemetrySpec)
    ensures Orderly(KeeperItems(spec), {2})
  {
    LoopsAreDistinct(spec);
    hide KeeperClaims, Distinct;
    var front := AccountItems(Keepers) + [Ensure(KeeperService)];
    KeeperClaimsAreKeepers(spec);
    assert KeeperClaims(spec) != [] ==> KeeperClaims(spec)[0] in KeeperClaims(spec);
    OneLoop(front, KeeperClaims(spec), [Ensure(KeeperSet)], 2);
    assert KeeperItems(spec) == front + [Claims(KeeperClaims(spec))] + [Ensure(KeeperSet)];
  }

  lemma ShardsOrderly(spec: TelemetrySpec)
    ensures Orderly(ShardItems(spec), {1})
  {
    LoopsAreDistinct(spec);
    hide ClickhouseClaims, Distinct;
    var front := AccountItems(Clickhouses) + [Ensure(ShardService)];
    var back := ShardSetItems(AtLeastOne(spec.clickhouse.shards)) + [Ensure(ClickhouseService)];
    OneLoop(front, ClickhouseClaims(spec), back, 1);
    assert ShardItems(spec) == front + [Claims(ClickhouseClaims(spec))] + back;
  }

  lemma ClickhouseOrderly(name: string, spec: TelemetrySpec)
    ensures Orderly(ClickhouseItems(name, spec), {1, 2})
  {
    hide KeeperItems, ShardItems, Orderly;
    if !spec.externalClickhouse {
      KeepersOrderly(spec);
      ShardsOrderly(spec);
      NoLoops([Ensure(PasswordSecret(name))]);
      OrderlyAppend([Ensure(PasswordSecret(name))], {}, KeeperItems(spec), {2});
      OrderlyAppend([Ensure(PasswordSecret(name))] + KeeperItems(spec), {} + {2}, ShardItems(spec), {1});
      assert {} + {2} + {1} == {1, 2};
    } else {
      NothingOrderly({1, 2});
    }
  }

  lemma NothingOrderly(kinds: set<nat>)
    ensures Orderly([], kinds)
  {
  }

  lemma NoLoopsElsewhere(spec: TelemetrySpec, deleted: bool)
    ensures Orderly(AgentItems(), {}) && Orderly(OldDeploymentItems(deleted) + RouteItems(spec), {})
  {
    NoLoops(AgentItems());
    NoLoops(OldDeploymentItems(deleted) + RouteItems(spec));
  }

  lemma PlanIsOrderly(name: string, spec: TelemetrySpec, deleted: bool)
    ensures Orderly(Plan(name, spec, deleted), {0, 1, 2, 3})
  {
    hide AgentItems, TelemetryItems, OldDeploymentItems, RouteItems, PrometheusItems, ClickhouseItems;
    NoLoopsElsewhere(spec, deleted);
    if spec.agentsOnly.None? {
      hide Orderly;
      TelemetryOrderly(spec);
      PrometheusOrderly(spec);
      ClickhouseOrderly(name, spec);
      var none: set<nat> := {};
      var rest := OldDeploymentItems(deleted) + RouteItems(spec);
      OrderlyAppend(AgentItems(), none, TelemetryItems(spec), {0});
      OrderlyAppend(AgentItems() + TelemetryItems(spec), none + {0}, rest, none);
      OrderlyAppend(PrometheusItems(spec), {3}, ClickhouseItems(name, spec), {1, 2});
      OrderlyAppend(AgentItems() + TelemetryItems(spec) + rest, none + {0} + none,
                    PrometheusItems(spec) + ClickhouseItems(name, spec), {3} + {1, 2});
      assert none + {0} + none + ({3} + {1, 2}) == {0, 1, 2, 3};
      assert Plan(name, spec, deleted)
             == AgentItems() + TelemetryItems(spec) + rest + (PrometheusItems(spec) + ClickhouseItems(name, spec));
    } else {
      assert Plan(name, spec, deleted) == AgentItems();
    }
  }

  // So what becomes of its claims is what the loop makes of them.

  lemma OtherItems(cr: Cr, spec: TelemetrySpec, deleted: bool, items: seq<Item>, i: nat, j: nat, c: ClaimId)
    requires AllSound(cr.name, spec, deleted, items) && Orderly(items, {0, 1, 2, 3})
    requires i < |items| && j < |items| && i != j && IsLoop(items[i]) && c in items[i].claims
    ensures !Touches(cr, items[j], KeyOf(cr, Volume(c)))
  {
    hide KeyOf, Distinct;
    assert Sound(cr.name, spec, deleted, items[i]) && Sound(cr.name, spec, deleted, items[j]);
    if Touches(cr, items[j], KeyOf(cr, Volume(c))) {
      match items[j]
      case Ensure(id) => KeysDiffer(cr, Volume(c), id);
      case Remove(id) => KeysDiffer(cr, Volume(c), id);
      case Claims(claims) =>
        var d :| d in claims && KeyOf(cr, Volume(c)) == KeyOf(cr, Volume(d));
        KeysDiffer(cr, Volume(c), Volume(d));
    }
  }

  /** Before its loop nothing touches a claim, and nothing after it. */
  lemma AroundTheLoop(t: Turn, deleted: bool, items: seq<Item>, store: Store, i: nat, c: ClaimId)
    requires AllSound(t.cr.name, t.after, deleted, items) && Orderly(items, {0, 1, 2, 3})
    requires i < |items| && IsLoop(items[i]) && c in items[i].claims
    ensures var key, before := KeyOf(t.cr, Volume(c)), DoAll(t, items[..i], store);
            Live(before, key) == Live(store, key) && Live(DoAll(t, items, store), key) == Live(Do(t, items[i], before), key)
  {
    hide Do, DoAll, Touches, KeyOf, Sound, Orderly, IsLoop;
    var key, before := KeyOf(t.cr, Volume(c)), DoAll(t, items[..i], store);
    forall j | 0 <= j < |items| && j != i ensures !Touches(t.cr, items[j], key) {
      OtherItems(t.cr, t.after, deleted, items, i, j, c);
    }
    DoAllFrame(t, items[..i], store, key);
    assert items == items[..i] + [items[i]] + items[i + 1..];
    DoAllAppend(t, items[..i] + [items[i]], items[i + 1..], store);
    DoAllSnoc(t, items[..i], items[i], store);
    DoAllFrame(t, items[i + 1..], Do(t, items[i], before), key);
  }

  lemma RolesTouchNoClaim(u: Setup, g: Generator, cr: Cr, store: Store, c: ClaimId)
    ensures Live(WithRoles(u, g, cr, store), KeyOf(cr, Volume(c))) == Live(store, KeyOf(cr, Volume(c)))
  {
    hide Do, DoAll;
    DoAllFrame(StartOf(u, g, cr), RoleItems(), store, KeyOf(cr, Volume(c)));
  }

  /** The claims of the four loops of a pass: of telemetry, Prometheus, the keepers and ClickHouse. */
  predicate LoopOf(spec: TelemetrySpec, claims: seq<ClaimId>) {
    && claims != [] && spec.agentsOnly.None?
    && (|| claims == TelemetryClaims(Capped(spec))
        || (!spec.externalPrometheus && !spec.storeMetricsInClickhouse && claims == [Prometheus])
        || (!spec.externalClickhouse && (claims == KeeperClaims(spec) || claims == ClickhouseClaims(spec))))
  }

  lemma LoopIsInPlan(name: string, spec: TelemetrySpec, deleted: bool, claims: seq<ClaimId>)
    requires LoopOf(spec, claims)
    ensures Claims(claims) in Plan(name, Capped(spec), deleted)
  {
    hide AgentItems, OldDeploymentItems, RouteItems, AccountItems, KeeperClaims, ClickhouseClaims, TelemetryClaims;
    var capped := Capped(spec);
    assert Claims(TelemetryClaims(capped)) in TelemetryItems(capped);
    SameCounts(spec);
    if !spec.externalPrometheus && !spec.storeMetricsInClickhouse {
      assert Claims([Prometheus]) in PrometheusServerItems();
      assert Claims([Prometheus]) in PrometheusItems(capped);
    }
    if !spec.externalClickhouse {
      ClickhouseLoops(name, capped);
    }
    hide TelemetryItems, PrometheusItems, ClickhouseItems;
  }

  lemma SameCounts(spec: TelemetrySpec)
    ensures KeeperClaims(Capped(spec)) == KeeperClaims(spec) && ClickhouseClaims(Capped(spec)) == ClickhouseClaims(spec)
  {
  }

  lemma ClickhouseLoops(name: string, spec: TelemetrySpec)
    requires !spec.externalClickhouse
    ensures Claims(KeeperClaims(spec)) in ClickhouseItems(name, spec) && Claims(ClickhouseClaims(spec)) in ClickhouseItems(name, spec)
  {
    hide AccountItems, KeeperClaims, ClickhouseClaims, ShardSetItems;
    assert Claims(KeeperClaims(spec)) in KeeperSetItems(spec);
    assert Claims(KeeperClaims(spec)) in KeeperItems(spec);
    assert Claims(ClickhouseClaims(spec)) in ShardVolumeItems(spec);
    assert Claims(ClickhouseClaims(spec)) in ShardItems(spec);
  }

  lemma LoopInPlan(cr: Cr, t: Turn, deleted: bool, claims: seq<ClaimId>) returns (i: nat)
    requires t.cr == cr && N.SameShape(cr.spec, t.after) && LoopOf(cr.spec, claims)
    ensures i < |Plan(cr.name, t.after, deleted)| && Plan(cr.name, t.after, deleted)[i] == Claims(claims)
  {
    hide Plan, LoopOf, Capped;
    PlanDependsOnShape(cr.name, cr.spec, t.after, deleted);
    LoopIsInPlan(cr.name, cr.spec, deleted, claims);
    i :| i < |Plan(cr.name, t.after, deleted)| && Plan(cr.name, t.after, deleted)[i] == Claims(claims);
  }

  lemma SameAnnotations(spec: TelemetrySpec, after: TelemetrySpec, c: ClaimId)
    requires N.SameShape(spec, after)
    ensures StorageFor(after, c) == StorageFor(spec, c)
  {
    assert after.clickhouse.(s3 := None).storage == spec.clickhouse.(s3 := None).storage;
    assert after.clickhouse.(s3 := None).keeperStorage == spec.clickhouse.(s3 := None).keeperStorage;
  }

  /** As far as its claims go, a pass is its loop over them. */
  ghost predicate RunsLoop(t: Turn, claims: seq<ClaimId>, shared: Option<Annotations>, start: Store, before: Store, end: Store) {
    forall c | c in claims ::
      var key := KeyOf(t.cr, Volume(c));
      Live(before, key) == Live(start, key) && Live(end, key) == Live(DoClaims(t, claims, shared, before), key)
  }

  lemma PassRunsLoop(u: Setup, c: Chance, cr: Cr, w: World, claims: seq<ClaimId>) returns (before: Store)
    requires OnlyFills(u.admit) && Orders(c, cr) && NoRecords(cr.spec) && Counted(cr.spec)
    requires LoopOf(cr.spec, claims)
    ensures Distinct(claims)
    ensures RunsLoop(TurnOf(u, c, cr, w.store), claims, StorageFor(cr.spec, claims[0]).annotations, w.store, before,
                     Pass(u, c, cr, w).store)
  {
    hide DoAll, Plan, Validation, Orderly, Distinct, Sound, DoClaims, StorageFor, N.SameShape;
    var t := TurnOf(u, c, cr, w.store);
    TurnFacts(u, c, cr, w.store);
    var i := LoopInPlan(cr, t, w.deploymentDeleted, claims);
    var plan, created := Plan(cr.name, t.after, w.deploymentDeleted), Validation(u, c, cr, w.store).0;
    PlanIsOrderly(cr.name, t.after, w.deploymentDeleted);
    LoopAt(plan, i);
    PlanIsSound(cr.name, t.after, w.deploymentDeleted);
    SameAnnotations(cr.spec, t.after, claims[0]);
    before := DoAll(t, plan[..i], created);
    forall x | x in claims
      ensures var key := KeyOf(cr, Volume(x));
              Live(before, key) == Live(w.store, key)
              && Live(Pass(u, c, cr, w).store, key)
                 == Live(DoClaims(t, claims, StorageFor(cr.spec, claims[0]).annotations, before), key)
    {
      RolesTouchNoClaim(u, c.generate, cr, w.store, x);
      SecretPhaseFrame(u, c, cr, w.store, KeyOf(cr, Volume(x)));
      AroundTheLoop(t, w.deploymentDeleted, plan, created, i, x);
    }
  }

  lemma LoopAt(items: seq<Item>, i: nat)
    requires Orderly(items, {0, 1, 2, 3}) && i < |items| && IsLoop(items[i])
    ensures Distinct(items[i].claims)
  {
    hide Distinct;
  }

  // The theorem, for each of the four loops.

  /** The annotations a resource wants on the claims of a loop. */
  function WantedOn(cr: Cr, claims: seq<ClaimId>): Annotations
    requires claims != []
  {
    OrEmpty(StorageFor(cr.spec, claims[0]).annotations)
  }

  predicate AllReadable(cr: Cr, claims: seq<ClaimId>, store: Store) {
    forall c | c in claims :: RecordReadable(Live(store, KeyOf(cr, Volume(c))))
  }

  lemma {:induction false} SameMissing(cr: Cr, claims: seq<ClaimId>, a: Store, b: Store)
    requires forall c | c in claims :: Live(a, KeyOf(cr, Volume(c))) == Live(b, KeyOf(cr, Volume(c)))
    ensures Missing(cr, claims, a) == Missing(cr, claims, b)
    decreases |claims|
  {
    hide KeyOf;
    if claims != [] {
      assert claims[0] in claims;
      SameMissing(cr, claims[1..], a, b);
    }
  }

  lemma SameAnnotated(cr: Cr, claims: seq<ClaimId>, a: Store, b: Store, wanted: Annotations)
    requires forall c | c in claims :: Live(a, KeyOf(cr, Volume(c))) == Live(b, KeyOf(cr, Volume(c)))
    ensures AllAnnotated(cr, claims, a, wanted) <==> AllAnnotated(cr, claims, b, wanted)
  {
    hide KeyOf, M.Carries;
    forall i | 0 <= i < |claims| ensures Live(a, KeyOf(cr, Volume(claims[i]))) == Live(b, KeyOf(cr, Volume(claims[i]))) {
      assert claims[i] in claims;
    }
  }

  lemma NothingToSet(t: Turn, claims: seq<ClaimId>, shared: Option<Annotations>, store: Store)
    requires OrEmpty(shared) == map[]
    ensures AllAnnotated(t.cr, claims, DoClaims(t, claims, shared, store), map[])
  {
    hide KeyOf, DoClaims;
    forall i | 0 <= i < |claims| ensures Live(DoClaims(t, claims, shared, store), KeyOf(t.cr, Volume(claims[i]))).Some? {
      DoClaimsMakesLive(t, claims, shared, store, claims[i]);
    }
  }

  /** For each component with claims: a pass leaves all of them in the store with the annotations the
      resource wants on them if and only if it wants none or at most one of them was missing. */
  lemma PassAnnotatesIff(u: Setup, c: Chance, cr: Cr, w: World, claims: seq<ClaimId>)
    requires OnlyFills(u.admit) && Orders(c, cr) && NoRecords(cr.spec) && Counted(cr.spec)
    requires LoopOf(cr.spec, claims) && AllReadable(cr, claims, w.store)
    ensures AllAnnotated(cr, claims, Pass(u, c, cr, w).store, WantedOn(cr, claims))
            <==> WantedOn(cr, claims) == map[] || Missing(cr, claims, w.store) <= 1
  {
    hide Pass, TurnOf, DoClaims, KeyOf, AllAnnotated, Missing;
    var t, shared := TurnOf(u, c, cr, w.store), StorageFor(cr.spec, claims[0]).annotations;
    TurnFacts(u, c, cr, w.store);
    var before := PassRunsLoop(u, c, cr, w, claims);
    SameMissing(cr, claims, before, w.store);
    SameAnnotated(cr, claims, Pass(u, c, cr, w).store, DoClaims(t, claims, shared, before), WantedOn(cr, claims));
    if WantedOn(cr, claims) == map[] {
      NothingToSet(t, claims, shared, before);
    } else {
      NoRecordOnClaims(cr, claims[0]);
      LoopAnnotatesIff(t, claims, WantedOn(cr, claims), before);
    }
  }

  lemma NoRecordOnClaims(cr: Cr, c: ClaimId)
    requires NoRecords(cr.spec)
    ensures NoRecordIn(StorageFor(cr.spec, c).annotations)
  {
  }

  lemma LoopLeavesReadable(t: Turn, claims: seq<ClaimId>, wanted: Annotations, store: Store)
    requires OnlyFills(t.setup.admit) && Distinct(claims) && LAST_APPLIED !in wanted && AllReadable(t.cr, claims, store)
    ensures AllReadable(t.cr, claims, DoClaims(t, claims, Some(wanted), store))
  {
    hide KeyOf, DoClaims, M.ClaimsPass;
    forall i | 0 <= i < |claims| ensures claims[i] in claims {
    }
    M.PassLeavesReadable(wanted, ClaimsFor(t, claims, store));
    forall i | 0 <= i < |claims| ensures RecordReadable(Live(DoClaims(t, claims, Some(wanted), store), KeyOf(t.cr, Volume(claims[i])))) {
      LoopAnnotates(t, claims, wanted, store, i);
    }
  }

  lemma PassLeavesReadable(u: Setup, c: Chance, cr: Cr, w: World, claims: seq<ClaimId>)
    requires OnlyFills(u.admit) && Orders(c, cr) && NoRecords(cr.spec) && Counted(cr.spec)
    requires LoopOf(cr.spec, claims) && AllReadable(cr, claims, w.store)
    requires WantedOn(cr, claims) != map[]
    ensures AllReadable(cr, claims, Pass(u, c, cr, w).store)
  {
    hide Pass, TurnOf, DoClaims, KeyOf;
    TurnFacts(u, c, cr, w.store);
    var before := PassRunsLoop(u, c, cr, w, claims);
    NoRecordOnClaims(cr, claims[0]);
    LoopLeavesReadable(TurnOf(u, c, cr, w.store), claims, WantedOn(cr, claims), before);
  }

  lemma PassMakesLive(u: Setup, c: Chance, cr: Cr, w: World, claims: seq<ClaimId>)
    requires OnlyFills(u.admit) && Orders(c, cr) && NoRecords(cr.spec) && Counted(cr.spec)
    requires LoopOf(cr.spec, claims)
    ensures AllLive(cr, claims, Pass(u, c, cr, w).store)
  {
    hide Pass, TurnOf, DoClaims, KeyOf;
    TurnFacts(u, c, cr, w.store);
    var before := PassRunsLoop(u, c, cr, w, claims);
    NoRecordOnClaims(cr, claims[0]);
    forall x | x in claims ensures Live(Pass(u, c, cr, w).store, KeyOf(cr, Volume(x))).Some? {
      DoClaimsMakesLive(TurnOf(u, c, cr, w.store), claims, StorageFor(cr.spec, claims[0]).annotations, before, x);
    }
  }

  /** Two passes always leave them annotated: the second finds every claim there. */
  lemma TwoPassesAnnotate(u: Setup, c1: Chance, c2: Chance, cr: Cr, w: World, claims: seq<ClaimId>)
    requires OnlyFills(u.admit) && Orders(c1, cr) && Orders(c2, cr) && NoRecords(cr.spec) && Counted(cr.spec)
    requires LoopOf(cr.spec, claims) && AllReadable(cr, claims, w.store)
    ensures AllAnnotated(cr, claims, Pass(u, c2, cr, Pass(u, c1, cr, w)).store, WantedOn(cr, claims))
  {
    hide Pass, TurnOf, DoClaims, KeyOf, AllAnnotated;
    var w1 := Pass(u, c1, cr, w);
    TurnFacts(u, c2, cr, w1.store);
    var t, wanted, shared := TurnOf(u, c2, cr, w1.store), WantedOn(cr, claims), StorageFor(cr.spec, claims[0]).annotations;
    var before := PassRunsLoop(u, c2, cr, w1, claims);
    SameAnnotated(cr, claims, Pass(u, c2, cr, w1).store, DoClaims(t, claims, shared, before), wanted);
    if wanted == map[] {
      NothingToSet(t, claims, shared, before);
    } else {
      PassMakesLive(u, c1, cr, w, claims);
      PassLeavesReadable(u, c1, cr, w, claims);
      NoRecordOnClaims(cr, claims[0]);
      NextLoopRepairs(t, claims, wanted, before);
    }
  }

  lemma {:induction false} AllMissing(cr: Cr, claims: seq<ClaimId>, store: Store)
    requires forall c | c in claims :: Live(store, KeyOf(cr, Volume(c))).None?
    ensures Missing(cr, claims, store) == |claims|
    decreases |claims|
  {
    hide KeyOf;
    if claims != [] {
      assert claims[0] in claims;
      AllMissing(cr, claims[1..], store);
    }
  }

  /** A resource with annotations for its keepers' claims and the usual three keepers, none of whose
      claims is there: its first pass leaves some claim without them. */
  lemma KeepersMissAnnotations(u: Setup, c: Chance, cr: Cr, w: World)
    requires OnlyFills(u.admit) && Orders(c, cr) && NoRecords(cr.spec) && Counted(cr.spec)
    requires HasPassword(cr.spec) && cr.spec.clickhouse.keeperReplicas == 0
    requires OrEmpty(cr.spec.clickhouse.keeperStorage.annotations) != map[]
    requires forall i | 0 <= i < 3 :: KeyOf(cr, Volume(Keeper(i))) !in w.store
    ensures !AllAnnotated(cr, [Keeper(0), Keeper(1), Keeper(2)], Pass(u, c, cr, w).store,
                          OrEmpty(cr.spec.clickhouse.keeperStorage.annotations))
  {
    hide Pass, KeyOf, AllAnnotated;
    var claims := [Keeper(0), Keeper(1), Keeper(2)];
    assert KeeperClaims(cr.spec) == claims;
    AllMissing(cr, claims, w.store);
    PassAnnotatesIff(u, c, cr, w, claims);
  }
}
