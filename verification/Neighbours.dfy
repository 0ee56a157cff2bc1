/** What a pass leaves alone: the objects of other resources, and the existence of its own. */
module Neighbours {
  import opened Trees
  import opened LastApplied
  import opened Naming
  import opened Spec
  import opened Objects
  import opened Inventory
  import opened Reconcile
  import opened Settling
  import opened SecretsInPass
  import opened Passes
  import N = Normalised

  predicate WantsSecret(cr: Cr, n: string) {
    n in N.WantProjects(map[], cr.spec.projects) || (n == cr.name + "-clickhouse" && HasPassword(cr.spec))
  }

  /** An object of a resource is none of another's. Roles of resources of one name are shared by all
      namespaces, and a secret is anybody's who wants it. */
  predicate Apart(cr: Cr, other: Cr, id: Id) {
    if id.SecretOf? then other.namespace != cr.namespace || !WantsSecret(cr, id.name)
    else other.name != cr.name || (other.namespace != cr.namespace && !ClusterWide(id))
  }

  lemma UntouchedByItem(cr: Cr, item: Item, other: Cr, id: Id)
    requires Apart(cr, other, id) && !id.SecretOf?
    ensures !Touches(cr, item, KeyOf(other, id))
  {
    hide KeyOf;
    if Touches(cr, item, KeyOf(other, id)) {
      match item
      case Ensure(mine) => KeysTellResources(other, id, cr, mine);
      case Remove(mine) => KeysTellResources(other, id, cr, mine);
      case Claims(claims) =>
        var c :| c in claims && KeyOf(other, id) == KeyOf(cr, Volume(c));
        KeysTellResources(other, id, cr, Volume(c));
    }
  }

  lemma UntouchedByItems(t: Turn, items: seq<Item>, store: Store, other: Cr, id: Id)
    requires Apart(t.cr, other, id) && !id.SecretOf?
    ensures Live(DoAll(t, items, store), KeyOf(other, id)) == Live(store, KeyOf(other, id))
  {
    hide DoAll, KeyOf, Touches, Apart;
    forall i | 0 <= i < |items| ensures !Touches(t.cr, items[i], KeyOf(other, id)) {
      UntouchedByItem(t.cr, items[i], other, id);
    }
    DoAllFrame(t, items, store, KeyOf(other, id));
  }

  lemma UnwantedSecretStays(u: Setup, c: Chance, cr: Cr, w: World, key: Key)
    requires OnlyFills(u.admit) && Orders(c, cr) && NoRecords(cr.spec) && Counted(cr.spec)
    requires key.kind.Secret? && (key.namespace != cr.namespace || !WantsSecret(cr, key.name))
    ensures Live(Pass(u, c, cr, w).store, key) == Live(w.store, key)
  {
    hide Pass, Orders;
    if key.namespace == cr.namespace {
      assert key == SecretKey(cr, key.name);
      PassOnSecret(u, c, cr, w, key.name);
    } else {
      PassOnForeignSecret(u, c, cr, w, key);
    }
  }

  /** A pass over one resource leaves every object of another as it was, whatever the two are called,
      but for a secret it wants itself and the cluster-wide role of resources of the same name. */
  lemma PassLeavesOthers(u: Setup, c: Chance, cr: Cr, w: World, other: Cr, id: Id)
    requires OnlyFills(u.admit) && Orders(c, cr) && NoRecords(cr.spec) && Counted(cr.spec)
    requires Apart(cr, other, id)
    ensures Live(Pass(u, c, cr, w).store, KeyOf(other, id)) == Live(w.store, KeyOf(other, id))
  {
    hide DoAll, Plan, Validation;
    var key := KeyOf(other, id);
    if id.SecretOf? {
      UnwantedSecretStays(u, c, cr, w, key);
    } else {
      var t := TurnOf(u, c, cr, w.store);
      UntouchedByItems(StartOf(u, c.generate, cr), RoleItems(), w.store, other, id);
      SecretPhaseFrame(u, c, cr, w.store, key);
      UntouchedByItems(t, Plan(cr.name, t.after, w.deploymentDeleted), Validation(u, c, cr, w.store).0, other, id);
    }
  }

  // What a pass takes away.

  lemma {:induction false} LoopKeepsLive(t: Turn, claims: seq<ClaimId>, shared: Option<Annotations>, store: Store, key: Key)
    requires Live(store, key).Some?
    ensures Live(DoClaims(t, claims, shared, store), key).Some?
    decreases |claims|
  {
    hide KeyOf;
    if claims != [] {
      var k := KeyOf(t.cr, Volume(claims[0]));
      LoopKeepsLive(t, claims[1..], SharedNext(t, claims[0], shared, Live(store, k)),
                    Write(store, k, EnsuredAs(t, Volume(claims[0]), OrEmpty(shared), Live(store, k))), key);
    }
  }

  lemma {:induction false} ItemsKeepLive(t: Turn, items: seq<Item>, store: Store, key: Key)
    requires Live(store, key).Some?
    requires forall i | 0 <= i < |items| && items[i].Remove? :: KeyOf(t.cr, items[i].id) != key
    ensures Live(DoAll(t, items, store), key).Some?
    decreases |items|
  {
    hide KeyOf, EnsuredAs;
    if items != [] {
      var front, last := items[..|items| - 1], items[|items| - 1];
      ItemsKeepLive(t, front, store, key);
      match last
      case Ensure(id) => DoEnsure(t, id, DoAll(t, front, store));
      case Claims(claims) =>
        if claims != [] {
          LoopKeepsLive(t, claims, StorageFor(t.after, claims[0]).annotations, DoAll(t, front, store), key);
        }
      case Remove(_) =>
    }
  }

  predicate Removes(cr: Cr, deleted: bool, key: Key) {
    && cr.spec.agentsOnly.None?
    && ((key == KeyOf(cr, OldDeployment) && !deleted) || (key == KeyOf(cr, Route) && cr.spec.ingress.None?))
  }

  lemma TurnShape(u: Setup, c: Chance, cr: Cr, store: Store)
    requires OnlyFills(u.admit) && Orders(c, cr)
    ensures var t := TurnOf(u, c, cr, store); t.cr == cr && N.SameShape(cr.spec, t.after)
  {
    ValidationNormalises(u, c, cr, store);
  }

  /** A pass takes no object away but the old deployment and an ingress nobody wants, and neither when
      only agents are asked for. */
  lemma PassKeepsLive(u: Setup, c: Chance, cr: Cr, w: World, key: Key)
    requires OnlyFills(u.admit) && Orders(c, cr) && Counted(cr.spec)
    requires !key.kind.Secret? && !Removes(cr, w.deploymentDeleted, key) && Live(w.store, key).Some?
    ensures Live(Pass(u, c, cr, w).store, key).Some?
  {
    hide DoAll, Plan, Validation, KeyOf, Removes, N.SameShape;
    var t := TurnOf(u, c, cr, w.store);
    TurnShape(u, c, cr, w.store);
    ItemsKeepLive(StartOf(u, c.generate, cr), RoleItems(), w.store, key);
    SecretPhaseFrame(u, c, cr, w.store, key);
    var plan := Plan(cr.name, t.after, w.deploymentDeleted);
    PlanRemoves(t, w.deploymentDeleted, key);
    ItemsKeepLive(t, plan, Validation(u, c, cr, w.store).0, key);
  }

  lemma PlanRemoves(t: Turn, deleted: bool, key: Key)
    requires N.SameShape(t.cr.spec, t.after) && !Removes(t.cr, deleted, key)
    ensures var plan := Plan(t.cr.name, t.after, deleted);
            forall i | 0 <= i < |plan| && plan[i].Remove? :: KeyOf(t.cr, plan[i].id) != key
  {
    hide KeyOf;
    PlanIsSound(t.cr.name, t.after, deleted);
    AgentsOnlyEnsure(t.cr.name, t.after, deleted);
    hide Plan;
    var plan := Plan(t.cr.name, t.after, deleted);
    forall i | 0 <= i < |plan| && plan[i].Remove? ensures KeyOf(t.cr, plan[i].id) != key {
      assert Sound(t.cr.name, t.after, deleted, plan[i]);
    }
  }

  lemma AgentsOnlyEnsure(name: string, spec: TelemetrySpec, deleted: bool)
    ensures spec.agentsOnly.Some? ==> forall i | 0 <= i < |Plan(name, spec, deleted)| :: Plan(name, spec, deleted)[i].Ensure?
  {
    hide TelemetryItems, OldDeploymentItems, RouteItems, PrometheusItems, ClickhouseItems;
    if spec.agentsOnly.Some? {
      assert Plan(name, spec, deleted) == AgentItems();
    }
  }

  /** After a pass its cluster-wide role and binding are there. */
  lemma PassMakesRoles(u: Setup, c: Chance, cr: Cr, w: World)
    requires OnlyFills(u.admit) && Orders(c, cr) && Counted(cr.spec)
    ensures Live(Pass(u, c, cr, w).store, KeyOf(cr, AgentRole)).Some?
    ensures Live(Pass(u, c, cr, w).store, KeyOf(cr, AgentRoleBinding)).Some?
  {
    hide DoAll, Validation, Plan, Do, N.SameShape;
    var t := TurnOf(u, c, cr, w.store);
    TurnShape(u, c, cr, w.store);
    var store := Validation(u, c, cr, w.store).0;
    RolesInPlan(cr.name, t.after, w.deploymentDeleted);
    ItemMade(t, w.deploymentDeleted, store, AgentRole);
    ItemMade(t, w.deploymentDeleted, store, AgentRoleBinding);
  }

  lemma RolesInPlan(name: string, spec: TelemetrySpec, deleted: bool)
    ensures Ensure(AgentRole) in Plan(name, spec, deleted) && Ensure(AgentRoleBinding) in Plan(name, spec, deleted)
  {
    hide TelemetryItems, OldDeploymentItems, RouteItems, PrometheusItems, ClickhouseItems, AccountItems, NodeAgentItems;
    assert Ensure(AgentRole) in ClusterAgentItems() && Ensure(AgentRoleBinding) in ClusterAgentItems();
  }

  lemma ItemMade(t: Turn, deleted: bool, store: Store, id: Id)
    requires N.SameShape(t.cr.spec, t.after) && ClusterWide(id) && Ensure(id) in Plan(t.cr.name, t.after, deleted)
    ensures Live(DoAll(t, Plan(t.cr.name, t.after, deleted), store), KeyOf(t.cr, id)).Some?
  {
    hide Plan, DoAll, Do, Removes;
    var plan, key := Plan(t.cr.name, t.after, deleted), KeyOf(t.cr, id);
    var i :| 0 <= i < |plan| && plan[i] == Ensure(id);
    NothingRemoved(t.cr, deleted, id);
    PlanRemoves(t, deleted, key);
    assert plan == plan[..i] + [plan[i]] + plan[i + 1..];
    DoAllAppend(t, plan[..i] + [plan[i]], plan[i + 1..], store);
    DoAllSnoc(t, plan[..i], plan[i], store);
    var before := DoAll(t, plan[..i], store);
    DoEnsure(t, id, before);
    if Live(before, key).None? {
      CreateSucceeds(t, id, AnnotationsFor(t, id));
    }
    ItemsKeepLive(t, plan[i + 1..], Do(t, Ensure(id), before), key);
  }

  lemma NothingRemoved(cr: Cr, deleted: bool, id: Id)
    requires ClusterWide(id)
    ensures !Removes(cr, deleted, KeyOf(cr, id))
  {
  }
}
