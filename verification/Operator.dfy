/** Reconcile itself, statement by statement: the calls that change the store, in the order of the
    program, each with its mutate function at work on the live object. */
module Operator {
  import opened Trees
  import opened LastApplied
  import opened Naming
  import opened Topology
  import opened ConfigEnvs
  import opened Spec
  import opened Validate
  import opened Validator
  import opened Objects
  import opened Inventory
  import opened Reconcile
  import opened Settling
  import opened Passes
  import opened Neighbours
  import opened Installation
  import M = MergeSpecs
  import E = Endpoints
  import I = Instances
  import N = Normalised
  import P = SecretsInPass
  import R = Reported

  /** The annotation map of the resource that a builder puts into its objects; null for a nil map. */
  function SharedOf(m: M.AnnotationMap?): Option<Annotations>
    reads m
  {
    if m == null then None else Some(m.entries)
  }

  /** What CreateOrUpdate stores: nothing after an error, nothing when nothing changed. */
  function Saved(live: Option<Resource>, mutated: Option<Resource>, key: Key, admit: Admission): Option<Resource> {
    match live
    case Some(o) => if mutated.None? || mutated.value == o then live else Some(admit(key, mutated.value))
    case None => if mutated.None? then None else Some(admit(key, mutated.value))
  }

  /** The claims of the grid are the claims of the plan. */
  lemma {:induction false} GridIsPlanned(name: string, size: nat, className: Option<string>, shards: nat, replicas: nat)
    ensures var grid, ids := ShardGrid(name, size, className, shards, replicas), ShardClaims(shards, replicas);
            && |grid| == |ids|
            && forall i | 0 <= i < |grid| ::
                 ids[i].Shard? && grid[i] == VolumeClaim(ClaimName(name, ids[i]), OrDefault(size, 100 * GIB), className)
    decreases shards
  {
    if shards > 0 {
      GridIsPlanned(name, size, className, shards - 1, replicas);
    }
  }

  datatype Status = Status(phase: string, errors: seq<string>)

  /** What Get makes of a request. */
  datatype Lookup = Found(cr: Cr, status: Status) | NotFound | Failed

  function StatusAfter(cr: Cr, before: Status, errors: seq<string>): Status {
    if cr.spec.agentsOnly.Some? then before
    else if errors == [] then Status("OK", [])
    else Status("Misconfigured", errors)
  }

  function RoleKey(req: I.Request): Key { Key(ClusterRole, "", I.RoleName(req)) }

  function RoleBindingKey(req: I.Request): Key { Key(ClusterRoleBinding, "", I.RoleName(req)) }

  /** Every registered instance has its cluster role and binding. */
  predicate RolesPresent(instances: set<I.Request>, store: Store) {
    forall r | r in instances :: RoleKey(r) in store && RoleBindingKey(r) in store
  }

  class TelemetryReconciler {
    var store: Store
    var instances: set<I.Request>
    var deploymentDeleted: bool
    const setup: Setup

    constructor (setup: Setup, store: Store)
      ensures this.setup == setup && this.store == store && !deploymentDeleted && instances == {}
    {
      this.setup := setup;
      this.store := store;
      instances := {};
      deploymentDeleted := false;
    }

    /** Get, then the controller reference: the first half of CreateOrUpdate. */
    method Fetch(t: Turn, key: Key, built: Resource, retain: bool) returns (live: Option<Resource>, o: Resource)
      ensures live == Live(store, key)
      ensures o == Own(if live.Some? then live.value else built, OwnerOf(t.cr), retain)
    {
      live := None;
      o := built;
      if key in store {
        live := Some(store[key]);
        o := store[key];
      }
      if retain {
        if o.controller.Some? && SameOwner(o.controller.value, OwnerOf(t.cr)) { o := o.(controller := None); }
      } else {
        if o.controller.None? || SameOwner(o.controller.value, OwnerOf(t.cr)) {
          o := o.(controller := Some(OwnerOf(t.cr)));
        }
      }
    }

    /** Create or update: the second half. */
    method Save(key: Key, live: Option<Resource>, mutated: Option<Resource>)
      requires live == Live(store, key)
      modifies this`store
      ensures store == Write(old(store), key, Saved(live, mutated, key, setup.admit))
    {
      if mutated.Some? {
        if live.None? {
          store := store[key := setup.admit(key, mutated.value)];
        } else if mutated.value != live.value {
          store := store[key := setup.admit(key, mutated.value)];
        }
      }
      assert old(store) == Write(old(store), key, live);
    }

    /** MergeSpecs on a fetched object. A found object brings its own annotation map; a built one still
        has the map its builder gave it. */
    method MergeInto(o: Resource, found: bool, target: Target, targets: M.AnnotationMap?) returns (merged: Option<Resource>)
      requires !found ==> o.annotations == OrEmpty(SharedOf(targets))
      modifies if targets == null then {} else {targets}
      ensures var wanted := old(OrEmpty(SharedOf(targets)));
              && merged == Merged(o, target, if found then wanted else SeenOnCreate(wanted))
              && (targets != null ==>
                    targets.entries == if found then wanted else Annotate(wanted, target, SeenOnCreate(wanted)))
    {
      var annotations := targets;
      if found {
        annotations := new M.AnnotationMap(o.annotations);
      }
      var obj := new M.ApiObject(annotations, o.spec);
      var ok := M.MergeSpecs(obj, target, targets);
      merged := if ok then Some(o.(annotations := obj.annotations.entries, spec := obj.spec)) else None;
    }

    /** The node ports of the live service, kept where the target names none. */
    method KeepPorts(live: Tree, ports: map<string, Port>) returns (kept: map<string, Port>)
      ensures kept == KeepNodePorts(live, ports)
    {
      kept := ports;
      var todo := ports.Keys;
      while todo != {}
        invariant todo <= ports.Keys && kept.Keys == ports.Keys
        invariant forall n | n in todo :: kept[n] == ports[n]
        invariant forall n | n in ports && n !in todo :: kept[n] == KeepNodePorts(live, ports)[n]
        decreases |todo|
      {
        var n :| n in todo;
        if kept[n].nodePort == 0 {
          var existing := NodePortIn(live, n);
          if existing != 0 {
            kept := kept[n := kept[n].(nodePort := existing)];
          }
        }
        todo := todo - {n};
      }
    }

    // One method per kind.

    method CreateOrUpdateRole(t: Turn, id: Id)
      requires t.setup == setup && (KindOf(id).Role? || KindOf(id).ClusterRole?)
      modifies this`store
      ensures store == Do(t, Ensure(id), old(store))
    {
      var key, rules := KeyOf(t.cr, id), setup.build.fixed(RequestOf(t.cr), id);
      var live, o := Fetch(t, key, Resource(None, map[], rules, map[]), Retained(t.after, id));
      Save(key, live, Some(o.(spec := rules)));
    }

    /** Service accounts and bindings have no mutate function. */
    method CreateOrUpdatePlain(t: Turn, id: Id)
      requires t.setup == setup
      requires KindOf(id).ServiceAccount? || KindOf(id).RoleBinding? || KindOf(id).ClusterRoleBinding?
      modifies this`store
      ensures store == Do(t, Ensure(id), old(store))
    {
      var key := KeyOf(t.cr, id);
      var live, o := Fetch(t, key, Resource(None, map[], setup.build.fixed(RequestOf(t.cr), id), map[]), Retained(t.after, id));
      Save(key, live, Some(o));
    }

    method CreateOrUpdateServiceAccount(t: Turn, component: Component)
      requires t.setup == setup
      modifies this`store
      ensures store == DoAll(t, AccountItems(component), old(store))
    {
      ghost var before := store;
      CreateOrUpdatePlain(t, Account(component));
      DoAllOne(t, Ensure(Account(component)), before);
      CreateOrUpdatePlain(t, Binding(component));
      DoAllSnoc(t, [Ensure(Account(component))], Ensure(Binding(component)), before);
      assert AccountItems(component) == [Ensure(Account(component))] + [Ensure(Binding(component))];
    }

    method CreateOrUpdateConfigMap(t: Turn)
      requires t.setup == setup
      modifies this`store
      ensures store == Do(t, Ensure(Config), old(store))
    {
      hide Merged, MergedExcept, AddKeys, KeepNodePorts;
      var key, data := KeyOf(t.cr, Config), setup.build.config(RequestOf(t.cr), t.after);
      var live, o := Fetch(t, key, Resource(None, map[], Empty, data), false);
      Save(key, live, Some(o.(data := data)));
    }

    method CreateOrUpdateSecret(t: Turn, name: string, keys: seq<string>, retain: bool)
      requires t.setup == setup
      modifies this`store
      ensures keys == [] ==> store == old(store)
      ensures var key := SecretKey(t.cr, name);
              keys != [] ==>
                store == Write(old(store), key, Ensured(Live(old(store), key), key, SecretKeys(keys), map[], OwnerOf(t.cr), retain,
                                                        t.generate, setup.admit))
    {
      if |keys| == 0 {
        return;
      }
      var key := SecretKey(t.cr, name);
      var live, o := Fetch(t, key, Resource(None, map[], Empty, map[]), retain);
      var data := GenerateMissing(o.data, name, keys, t.generate);
      Save(key, live, Some(o.(data := data)));
    }

    /** Deployments and daemon sets. */
    method CreateOrUpdateWorkload(t: Turn, id: Id)
      requires t.setup == setup && (KindOf(id).Deployment? || KindOf(id).DaemonSet?)
      modifies this`store
      ensures store == Do(t, Ensure(id), old(store))
    {
      var key, spec := KeyOf(t.cr, id), setup.build.workload(RequestOf(t.cr), id, t.after, t.envs);
      var live, o := Fetch(t, key, Resource(None, map[], spec, map[]), false);
      var merged := MergeInto(o, live.Some?, spec, null);
      Save(key, live, merged);
    }

    method CreateOrUpdateStatefulSet(t: Turn, id: Id)
      requires t.setup == setup && KindOf(id).StatefulSet?
      modifies this`store
      ensures store == Do(t, Ensure(id), old(store))
    {
      hide Merged, AddKeys, KeepNodePorts, TargetSize, PortsFor, ServiceBase, SizeFor;
      var key, spec := KeyOf(t.cr, id), setup.build.workload(RequestOf(t.cr), id, t.after, t.envs);
      var live, o := Fetch(t, key, Resource(None, map[], spec, map[]), false);
      var volumeClaimTemplates := Member(Some(o.spec), "volumeClaimTemplates");
      var merged := MergeInto(o, live.Some?, spec, null);
      if merged.Some? {
        MergedIsNode(o, spec, map[]);
        merged := Some(merged.value.(spec := WithMember(merged.value.spec, "volumeClaimTemplates", volumeClaimTemplates)));
      }
      Save(key, live, merged);
    }

    /** The mutate function of a service: whatever the merge makes of the ports, they are the target's,
        with the node ports kept. */
    method MergeService(o: Resource, found: bool, base: Target, ports: map<string, Port>, annotations: M.AnnotationMap)
      returns (merged: Option<Resource>)
      requires !found ==> o.annotations == annotations.entries
      modifies annotations
      ensures var wanted := if found then old(annotations.entries) else SeenOnCreate(old(annotations.entries));
              var kept := KeepNodePorts(o.spec, ports);
              merged == MergedExcept(o, ServiceSpec(base, kept), wanted, "ports", Some(PortsTree(kept)))
    {
      hide Merged, KeepNodePorts, PortsTree, ServiceSpec;
      var kept := KeepPorts(o.spec, ports);
      ghost var wanted := annotations.entries;
      merged := MergeInto(o, found, ServiceSpec(base, kept), annotations);
      if merged.Some? {
        MergedIsNode(o, ServiceSpec(base, kept), if found then wanted else SeenOnCreate(wanted));
        merged := Some(merged.value.(spec := WithMember(merged.value.spec, "ports", Some(PortsTree(kept)))));
      }
    }

    /** What the builder of a service puts in. */
    method BuildService(t: Turn, id: Id) returns (base: Target, ports: map<string, Port>)
      requires t.setup == setup && KindOf(id).Service?
      ensures base == ServiceBase(setup, RequestOf(t.cr), t.after.service, id)
      ensures ports == PortsFor(t.after, id)
    {
      base := setup.build.service(RequestOf(t.cr), id);
      if id == TelemetryService {
        if t.after.service.serviceType != "" {
          base := Node(base.members["type" := Leaf(Text(t.after.service.serviceType))]);
        }
        var list := E.TelemetryServicePorts(t.after);
        ports := PortMap(list);
      } else {
        ports := PortsFor(t.after, id);
      }
    }

    method CreateOrUpdateService(t: Turn, id: Id)
      requires t.setup == setup && KindOf(id).Service?
      modifies this`store
      ensures store == Do(t, Ensure(id), old(store))
    {
      hide MergedExcept, KeepNodePorts, PortsFor, PortsTree, ServiceSpec;
      var key := KeyOf(t.cr, id);
      var base, ports := BuildService(t, id);
      var annotations := new M.AnnotationMap(AnnotationsFor(t, id));
      var live, o := Fetch(t, key, Resource(None, annotations.entries, ServiceSpec(base, ports), map[]), false);
      var merged := MergeService(o, live.Some?, base, ports, annotations);
      Save(key, live, merged);
    }

    /** The annotation map of the built ingress: the resource's own, or under v1beta1 a copy with the class. */
    method BuildIngressAnnotations(t: Turn) returns (annotations: M.AnnotationMap)
      requires t.setup == setup && t.after.ingress.Some?
      ensures fresh(annotations) && annotations.entries == AnnotationsFor(t, Route)
    {
      var ingress := t.after.ingress.value;
      annotations := new M.AnnotationMap(ingress.annotations);
      if !setup.ingressV1 {
        if ingress.className.Some? {
          annotations.entries := annotations.entries[INGRESS_CLASS := Plain(ingress.className.value)];
        }
      }
    }

    /** The mutate function is the same for both versions. */
    method EnsureIngress(t: Turn)
      requires t.setup == setup && t.after.ingress.Some?
      modifies this`store
      ensures store == Do(t, Ensure(Route), old(store))
    {
      hide Merged, MergedExcept, AddKeys, KeepNodePorts, AnnotationsFor;
      var key, spec := KeyOf(t.cr, Route), setup.build.workload(RequestOf(t.cr), Route, t.after, t.envs);
      var annotations := BuildIngressAnnotations(t);
      var live, o := Fetch(t, key, Resource(None, annotations.entries, spec, map[]), false);
      var merged := MergeInto(o, live.Some?, spec, annotations);
      Save(key, live, merged);
    }

    method CreateOrUpdateIngress(t: Turn, delete: bool)
      requires t.setup == setup && (delete <==> t.after.ingress.None?)
      modifies this`store
      ensures store == DoAll(t, RouteItems(t.after), old(store))
    {
      DoAllOne(t, if delete then Remove(Route) else Ensure(Route), store);
      if delete {
        store := store - {KeyOf(t.cr, Route)};
      } else {
        EnsureIngress(t);
      }
    }

    // The claims.

    /** The mutate function of a claim: the request never goes below what the live claim has. */
    method MergeClaim(o: Resource, found: bool, base: Target, target: nat, annotations: M.AnnotationMap?)
      returns (merged: Option<Resource>)
      requires !found ==> o.annotations == OrEmpty(SharedOf(annotations))
      modifies if annotations == null then {} else {annotations}
      ensures var wanted := old(OrEmpty(SharedOf(annotations)));
              var spec := ClaimSpec(base, TargetSize(o.spec, target));
              && merged == Merged(o, spec, if found then wanted else SeenOnCreate(wanted))
              && (annotations != null ==>
                    annotations.entries == if found then wanted else Annotate(wanted, spec, SeenOnCreate(wanted)))
    {
      var size := target;
      var currentStorage := StorageOf(o.spec);
      if currentStorage != 0 && currentStorage > size {
        size := currentStorage;
      }
      merged := MergeInto(o, found, ClaimSpec(base, size), annotations);
    }

    lemma BuiltSize(base: Target, size: nat)
      ensures TargetSize(ClaimSpec(base, size), size) == size
    {
      CoversItself(ClaimSpec(base, size));
      CoveredStorage(ClaimSpec(base, size), base, size);
    }

    method CreateOrUpdateClaim(t: Turn, key: Key, base: Target, size: nat, annotations: M.AnnotationMap?, retain: bool)
      requires t.setup == setup
      modifies this`store, if annotations == null then {} else {annotations}
      ensures var shared := old(OrEmpty(SharedOf(annotations)));
              var live := Live(old(store), key);
              && store == Write(old(store), key, Ensured(live, key, Claimed(base, size), shared, OwnerOf(t.cr), retain,
                                                         t.generate, setup.admit))
              && (annotations != null ==>
                    annotations.entries == if live.Some? then shared
                                           else Annotate(shared, ClaimSpec(base, size), SeenOnCreate(shared)))
    {
      var entries := if annotations == null then map[] else annotations.entries;
      var live, o := Fetch(t, key, Resource(None, entries, ClaimSpec(base, size), map[]), retain);
      var merged := MergeClaim(o, live.Some?, base, size, annotations);
      BuiltSize(base, size);
      Save(key, live, merged);
    }

    method CreateOrUpdatePVC(t: Turn, ghost id: ClaimId, pvc: VolumeClaim, annotations: M.AnnotationMap?, retain: bool)
      requires t.setup == setup
      requires pvc == VolumeClaim(ClaimName(t.cr.name, id), SizeFor(t.after, id), StorageFor(t.after, id).className)
      requires retain == StorageFor(t.after, id).retain
      modifies this`store, if annotations == null then {} else {annotations}
      ensures var key := KeyOf(t.cr, Volume(id));
              var shared := old(SharedOf(annotations));
              && store == Write(old(store), key, EnsuredAs(t, Volume(id), OrEmpty(shared), Live(old(store), key)))
              && SharedOf(annotations) == SharedNext(t, id, shared, Live(old(store), key))
    {
      CreateOrUpdateClaim(t, Key(PersistentVolumeClaim, t.cr.namespace, pvc.name), ClaimBase(pvc.className), pvc.size,
                          annotations, retain);
    }

    /** The loop over the claims a builder made; they all have the annotation map of the resource. */
    method CreateOrUpdatePVCs(t: Turn, ghost ids: seq<ClaimId>, pvcs: seq<VolumeClaim>, storage: Storage)
      requires t.setup == setup && |ids| == |pvcs|
      requires forall i | 0 <= i < |ids| ::
                 && StorageFor(t.after, ids[i]) == storage
                 && pvcs[i] == VolumeClaim(ClaimName(t.cr.name, ids[i]), SizeFor(t.after, ids[i]), storage.className)
      modifies this`store
      ensures store == Do(t, Claims(ids), old(store))
    {
      var annotations: M.AnnotationMap? := null;
      if storage.annotations.Some? {
        annotations := new M.AnnotationMap(storage.annotations.value);
      }
      ghost var before := store;
      assert ids[0..] == ids;
      for i := 0 to |pvcs|
        invariant DoClaims(t, ids[i..], SharedOf(annotations), store) == DoClaims(t, ids, storage.annotations, before)
      {
        assert ids[i..][0] == ids[i] && ids[i..][1..] == ids[i + 1..];
        CreateOrUpdatePVC(t, ids[i], pvcs[i], annotations, storage.retain);
      }
      assert ids[|pvcs|..] == [];
    }

    // The segments of the pass.

    method ReconcileNodeAgent(t: Turn)
      requires t.setup == setup
      modifies this`store
      ensures store == DoAll(t, NodeAgentItems(), old(store))
    {
      ghost var before := store;
      CreateOrUpdateServiceAccount(t, NodeAgents);
      CreateOrUpdateWorkload(t, NodeAgent);
      DoAllSnoc(t, AccountItems(NodeAgents), Ensure(NodeAgent), before);
    }

    method ReconcileClusterAgent(t: Turn)
      requires t.setup == setup
      modifies this`store
      ensures store == DoAll(t, ClusterAgentItems(), old(store))
    {
      hide Do;
      ghost var before := store;
      ghost var done := AccountItems(ClusterAgents);
      CreateOrUpdateServiceAccount(t, ClusterAgents);
      CreateOrUpdateRole(t, AgentRole);
      DoAllSnoc(t, done, Ensure(AgentRole), before);
      done := done + [Ensure(AgentRole)];
      CreateOrUpdatePlain(t, AgentRoleBinding);
      DoAllSnoc(t, done, Ensure(AgentRoleBinding), before);
      done := done + [Ensure(AgentRoleBinding)];
      CreateOrUpdateWorkload(t, ClusterAgent);
      DoAllSnoc(t, done, Ensure(ClusterAgent), before);
      assert done + [Ensure(ClusterAgent)] == ClusterAgentItems();
    }

    method ReconcileTelemetryClaims(t: Turn)
      requires t.setup == setup
      modifies this`store
      ensures store == DoAll(t, [Claims(TelemetryClaims(t.after))], old(store))
    {
      var storage := t.after.storage;
      var pvcs := TelemetryPVCs(t.cr.name, t.after.replicas, storage.size, storage.className);
      DoAllOne(t, Claims(TelemetryClaims(t.after)), store);
      CreateOrUpdatePVCs(t, TelemetryClaims(t.after), pvcs, storage);
    }

    method ReconcileTelemetry(t: Turn)
      requires t.setup == setup
      modifies this`store
      ensures store == DoAll(t, TelemetryItems(t.after), old(store))
    {
      ghost var before := store;
      ghost var done := AccountItems(Telemetries);
      CreateOrUpdateServiceAccount(t, Telemetries);
      ReconcileTelemetryClaims(t);
      DoAllAppend(t, done, [Claims(TelemetryClaims(t.after))], before);
      ReconcileTelemetrySet(t);
      DoAllAppend(t, done + [Claims(TelemetryClaims(t.after))], TelemetrySetItems(), before);
    }

    method ReconcileTelemetrySet(t: Turn)
      requires t.setup == setup
      modifies this`store
      ensures store == DoAll(t, TelemetrySetItems(), old(store))
    {
      hide Do;
      ghost var before := store;
      CreateOrUpdateConfigMap(t);
      DoAllOne(t, Ensure(Config), before);
      CreateOrUpdateStatefulSet(t, TelemetrySet);
      DoAllSnoc(t, [Ensure(Config)], Ensure(TelemetrySet), before);
      CreateOrUpdateService(t, TelemetryService);
      DoAllSnoc(t, [Ensure(Config)] + [Ensure(TelemetrySet)], Ensure(TelemetryService), before);
      assert [Ensure(Config)] + [Ensure(TelemetrySet)] + [Ensure(TelemetryService)] == TelemetrySetItems();
    }

    method DeleteOldDeployment(t: Turn)
      requires t.setup == setup
      modifies this`store, this`deploymentDeleted
      ensures store == DoAll(t, OldDeploymentItems(old(deploymentDeleted)), old(store))
      ensures deploymentDeleted
    {
      if !deploymentDeleted {
        DoAllOne(t, Remove(OldDeployment), store);
        store := store - {KeyOf(t.cr, OldDeployment)};
        deploymentDeleted := true;
      }
    }

    method ReconcilePrometheusServer(t: Turn)
      requires t.setup == setup
      modifies this`store
      ensures store == DoAll(t, PrometheusServerItems(), old(store))
    {
      hide Do;
      ghost var before := store;
      ghost var done := [Claims([Prometheus])];
      var storage := t.after.prometheusStorage;
      var size := storage.size;
      if size == 0 { size := 10 * GIB; }
      var pvc := VolumeClaim("data-" + (t.cr.name + "-prometheus"), size, storage.className);
      CreateOrUpdatePVCs(t, [Prometheus], [pvc], storage);
      DoAllOne(t, Claims([Prometheus]), before);
      CreateOrUpdateWorkload(t, PrometheusServer);
      DoAllSnoc(t, done, Ensure(PrometheusServer), before);
      done := done + [Ensure(PrometheusServer)];
      CreateOrUpdateService(t, PrometheusService);
      DoAllSnoc(t, done, Ensure(PrometheusService), before);
      assert done + [Ensure(PrometheusService)] == PrometheusServerItems();
    }

    method ReconcilePrometheus(t: Turn)
      requires t.setup == setup
      modifies this`store
      ensures store == DoAll(t, PrometheusItems(t.after), old(store))
    {
      if !t.after.externalPrometheus && !t.after.storeMetricsInClickhouse {
        ghost var before := store;
        CreateOrUpdateServiceAccount(t, Prometheuses);
        ReconcilePrometheusServer(t);
        DoAllAppend(t, AccountItems(Prometheuses), PrometheusServerItems(), before);
      }
    }

    method ReconcileKeeperClaims(t: Turn)
      requires t.setup == setup
      modifies this`store
      ensures store == Do(t, Claims(KeeperClaims(t.after)), old(store))
    {
      var storage := t.after.clickhouse.keeperStorage;
      var pvcs := KeeperPVCs(t.cr.name, t.after.clickhouse.keeperReplicas, storage.size, storage.className);
      CreateOrUpdatePVCs(t, KeeperClaims(t.after), pvcs, storage);
    }

    method ReconcileKeeperSet(t: Turn)
      requires t.setup == setup
      modifies this`store
      ensures store == DoAll(t, KeeperSetItems(t.after), old(store))
    {
      hide Do;
      ghost var before := store;
      ghost var done := [Ensure(KeeperService)];
      CreateOrUpdateService(t, KeeperService);
      DoAllOne(t, Ensure(KeeperService), before);
      ReconcileKeeperClaims(t);
      DoAllSnoc(t, done, Claims(KeeperClaims(t.after)), before);
      done := done + [Claims(KeeperClaims(t.after))];
      CreateOrUpdateStatefulSet(t, KeeperSet);
      DoAllSnoc(t, done, Ensure(KeeperSet), before);
      assert done + [Ensure(KeeperSet)] == KeeperSetItems(t.after);
    }

    method ReconcileKeepers(t: Turn)
      requires t.setup == setup
      modifies this`store
      ensures store == DoAll(t, KeeperItems(t.after), old(store))
    {
      ghost var before := store;
      CreateOrUpdateServiceAccount(t, Keepers);
      ReconcileKeeperSet(t);
      DoAllAppend(t, AccountItems(Keepers), KeeperSetItems(t.after), before);
    }

    method ReconcileShardClaims(t: Turn)
      requires t.setup == setup
      modifies this`store
      ensures store == Do(t, Claims(ClickhouseClaims(t.after)), old(store))
    {
      var spec := t.after.clickhouse;
      var pvcs := ClickhousePVCs(t.cr.name, spec.shards, spec.replicas, spec.storage.size, spec.storage.className);
      GridIsPlanned(t.cr.name, spec.storage.size, spec.storage.className, Count(OrOne(spec.shards)), Count(OrOne(spec.replicas)));
      CreateOrUpdatePVCs(t, ClickhouseClaims(t.after), pvcs, spec.storage);
    }

    method ReconcileShardSets(t: Turn)
      requires t.setup == setup && Counted(t.after)
      modifies this`store
      ensures store == DoAll(t, ShardSetItems(AtLeastOne(t.after.clickhouse.shards)), old(store))
    {
      hide Do;
      var spec := t.after.clickhouse;
      var sets := ClickhouseStatefulSets(t.cr.name, spec.shards, spec.replicas, spec.storage.size, spec.storage.className);
      EmptyGrid(t.cr.name, spec.storage.size, spec.storage.className, Count(OrOne(spec.shards)), Count(OrOne(spec.replicas)));
      ghost var before := store;
      ghost var items := ShardSetItems(AtLeastOne(spec.shards));
      assert items[..0] == [];
      for i := 0 to |sets.value|
        invariant store == DoAll(t, items[..i], before)
      {
        assert sets.value[i].name == Inventory.NameOf(t.cr.name, ShardSet(i));
        CreateOrUpdateStatefulSet(t, ShardSet(i));
        DoAllSnoc(t, items[..i], items[i], before);
        assert items[..i + 1] == items[..i] + [items[i]];
      }
      assert items[..|items|] == items;
    }

    method ReconcileShardVolumes(t: Turn)
      requires t.setup == setup
      modifies this`store
      ensures store == DoAll(t, ShardVolumeItems(t.after), old(store))
    {
      ghost var before := store;
      CreateOrUpdateService(t, ShardService);
      DoAllOne(t, Ensure(ShardService), before);
      ReconcileShardClaims(t);
      DoAllSnoc(t, [Ensure(ShardService)], Claims(ClickhouseClaims(t.after)), before);
      assert [Ensure(ShardService)] + [Claims(ClickhouseClaims(t.after))] == ShardVolumeItems(t.after);
    }

    method ReconcileShards(t: Turn)
      requires t.setup == setup && Counted(t.after)
      modifies this`store
      ensures store == DoAll(t, ShardItems(t.after), old(store))
    {
      hide Do;
      ghost var before := store;
      ghost var done := AccountItems(Clickhouses);
      CreateOrUpdateServiceAccount(t, Clickhouses);
      ReconcileShardVolumes(t);
      DoAllAppend(t, done, ShardVolumeItems(t.after), before);
      done := done + ShardVolumeItems(t.after);
      ReconcileShardSets(t);
      DoAllAppend(t, done, ShardSetItems(AtLeastOne(t.after.clickhouse.shards)), before);
      done := done + ShardSetItems(AtLeastOne(t.after.clickhouse.shards));
      CreateOrUpdateService(t, ClickhouseService);
      DoAllSnoc(t, done, Ensure(ClickhouseService), before);
    }

    method CreateOrUpdatePassword(t: Turn)
      requires t.setup == setup
      modifies this`store
      ensures store == DoAll(t, [Ensure(PasswordSecret(t.cr.name))], old(store))
    {
      DoAllOne(t, Ensure(PasswordSecret(t.cr.name)), store);
      CreateOrUpdateSecret(t, t.cr.name + "-clickhouse", ["password"], false);
    }

    method ReconcileClickhouse(t: Turn)
      requires t.setup == setup && Counted(t.after)
      modifies this`store
      ensures store == DoAll(t, ClickhouseItems(t.cr.name, t.after), old(store))
    {
      if !t.after.externalClickhouse {
        ghost var before := store;
        ghost var done := [Ensure(PasswordSecret(t.cr.name))];
        CreateOrUpdatePassword(t);
        ReconcileKeepers(t);
        DoAllAppend(t, done, KeeperItems(t.after), before);
        ReconcileShards(t);
        DoAllAppend(t, done + KeeperItems(t.after), ShardItems(t.after), before);
      }
    }

    method ReconcileRoles(t: Turn)
      requires t.setup == setup
      modifies this`store
      ensures store == DoAll(t, RoleItems(), old(store))
    {
      hide Do;
      ghost var before := store;
      CreateOrUpdateRole(t, SccRole(false));
      DoAllOne(t, Ensure(SccRole(false)), before);
      CreateOrUpdateRole(t, SccRole(true));
      DoAllSnoc(t, [Ensure(SccRole(false))], Ensure(SccRole(true)), before);
      assert [Ensure(SccRole(false))] + [Ensure(SccRole(true))] == RoleItems();
    }

    /** The secrets the projects want, in the order the map happens to have. */
    method CreateApiKeySecrets(t: Turn, wanted: map<string, seq<string>>, order: seq<string>)
      requires t.setup == setup && forall n | n in order :: n in wanted && wanted[n] != []
      modifies this`store
      ensures store == CreateSecrets(t, wanted, order, old(store))
    {
      ghost var before := store;
      assert order[..0] == [];
      for i := 0 to |order|
        invariant store == CreateSecrets(t, wanted, order[..i], before)
      {
        assert order[..i + 1][..i] == order[..i];
        CreateOrUpdateSecret(t, order[i], wanted[order[i]], true);
      }
      assert order[..|order|] == order;
    }

    /** Everything after validation. */
    method Carry(t: Turn)
      requires t.setup == setup && Counted(t.after)
      modifies this`store, this`deploymentDeleted
      ensures store == DoAll(t, Plan(t.cr.name, t.after, old(deploymentDeleted)), old(store))
      ensures deploymentDeleted == (old(deploymentDeleted) || t.after.agentsOnly.None?)
    {
      hide Do, DoAll;
      ghost var before, deleted := store, deploymentDeleted;
      ghost var done := NodeAgentItems();
      ReconcileNodeAgent(t);
      ReconcileClusterAgent(t);
      DoAllAppend(t, done, ClusterAgentItems(), before);
      done := AgentItems();
      if t.after.agentsOnly.Some? {
        assert Plan(t.cr.name, t.after, deleted) == done;
        return;
      }
      ReconcileTelemetry(t);
      DoAllAppend(t, done, TelemetryItems(t.after), before);
      done := done + TelemetryItems(t.after);
      DeleteOldDeployment(t);
      DoAllAppend(t, done, OldDeploymentItems(deleted), before);
      done := done + OldDeploymentItems(deleted);
      CreateOrUpdateIngress(t, t.after.ingress.None?);
      DoAllAppend(t, done, RouteItems(t.after), before);
      done := done + RouteItems(t.after);
      ReconcilePrometheus(t);
      DoAllAppend(t, done, PrometheusItems(t.after), before);
      done := done + PrometheusItems(t.after);
      ReconcileClickhouse(t);
      DoAllAppend(t, done, ClickhouseItems(t.cr.name, t.after), before);
      done := done + ClickhouseItems(t.cr.name, t.after);
      assert done == Plan(t.cr.name, t.after, deleted);
    }

    /** Roles and validation, with the secrets it creates on the way. */
    method ValidateInPass(cr: Cr, c: Chance) returns (t: Turn, errors: seq<string>)
      requires Counted(cr.spec) && Orders(c, cr)
      modifies this`store
      ensures store == Validation(setup, c, cr, old(store)).0
      ensures t == TurnOf(setup, c, cr, old(store)) && t.setup == setup && t.cr == cr
      ensures errors == Validation(setup, c, cr, old(store)).2.errors
    {
      hide Do, DoAll, CreateSecrets, BeforeSecrets, AfterSecrets, Normalise, SecretsOf, Counted, N.WantProjects;
      var start := StartOf(setup, c.generate, cr);
      ReconcileRoles(start);
      var envs := new Envs();
      var v := new Validator(cr.spec, SecretsOf(cr, store), envs, setup.crc, setup.samlValid);
      v.ValidateBeforeSecrets();
      N.WantedDependsOnSpecOnly(ContextIn(setup, cr, store), cr.spec, c.generate);
      P.WantedInOrder(c, cr);
      N.WantedHaveKeys(cr.spec.projects);
      CreateApiKeySecrets(start, v.apiKeySecrets, c.order);
      v.secrets := SecretsOf(cr, store);
      v.ValidateAfterSecrets();
      errors := v.errors;
      t := Turn(setup, cr, v.spec, envs.bindings, c.generate);
    }

    /** One pass over an existing resource: validation, then everything it wants. */
    method RunPass(cr: Cr, c: Chance) returns (errors: seq<string>)
      requires Counted(cr.spec) && Orders(c, cr)
      modifies this`store, this`deploymentDeleted
      ensures World(store, deploymentDeleted) == Pass(setup, c, cr, old(World(store, deploymentDeleted)))
      ensures errors == Validation(setup, c, cr, old(store)).2.errors
    {
      hide DoAll, Validation, Plan, TurnOf, Orders;
      ghost var before := store;
      var t;
      t, errors := ValidateInPass(cr, c);
      CountsStay(setup, c, cr, before);
      Carry(t);
    }

    /** The whole of Reconcile for one request, as far as one thread goes. A resource that is gone is
        unregistered, and the last one to go takes its cluster role and binding along; one that is there
        is registered before its pass, and what validation reported becomes its status, except that with
        agents only the status stays as it is. Whoever is registered has a cluster role and binding. */
    method Reconcile(req: I.Request, lookup: Lookup, c: Chance) returns (status: Option<Status>, requeueAfter: nat)
      requires lookup.Found? ==>
                 && lookup.cr.name == req.name && lookup.cr.namespace == req.namespace
                 && Counted(lookup.cr.spec) && Orders(c, lookup.cr)
      modifies this
      ensures lookup.Failed? ==> instances == old(instances) && store == old(store)
      ensures lookup.NotFound? ==>
                && instances == old(instances) - {req}
                && store == if instances == {} then old(store) - {RoleKey(req), RoleBindingKey(req)} else old(store)
      ensures !lookup.Found? ==> status == None && requeueAfter == 0 && deploymentDeleted == old(deploymentDeleted)
      ensures lookup.Found? ==>
                && instances == old(instances) + {req}
                && World(store, deploymentDeleted) == Pass(setup, c, lookup.cr, old(World(store, deploymentDeleted)))
                && var errors := Validation(setup, c, lookup.cr, old(store)).2.errors;
                   && status == Some(StatusAfter(lookup.cr, lookup.status, errors))
                   && requeueAfter == if lookup.cr.spec.agentsOnly.None? && errors != [] then 60 else 0
      ensures OnlyFills(setup.admit) && lookup.Found? && lookup.cr.spec.agentsOnly.None? ==>
                var (secrets, spec) := (SecretsOf(lookup.cr, old(store)), lookup.cr.spec);
                if R.Misconfigured(secrets, setup.samlValid, spec, c.generate)
                then && status == Some(Status("Misconfigured", R.Errors(Context(secrets, setup.crc, setup.samlValid), spec, c.generate)))
                     && requeueAfter == 60
                else status == Some(Status("OK", [])) && requeueAfter == 0
      ensures OnlyFills(setup.admit) && lookup.Found? ==>
                deploymentDeleted == (old(deploymentDeleted) || lookup.cr.spec.agentsOnly.None?)
      ensures OnlyFills(setup.admit) && old(RolesPresent(instances, store)) ==> RolesPresent(instances, store)
    {
      hide Pass, Validation, R.Misconfigured, R.Errors;
      status, requeueAfter := None, 0;
      match lookup {
        case Failed =>
        case NotFound =>
          if req in instances {
            instances := instances - {req};
          }
          if |instances| == 0 {
            store := store - {RoleBindingKey(req)};
            store := store - {RoleKey(req)};
          }
        case Found(cr, before) =>
          ghost var registered, was := instances, World(store, deploymentDeleted);
          instances := instances + {req};
          var errors := RunPass(cr, c);
          if OnlyFills(setup.admit) {
            ReportedInPass(setup, c, cr, was.store);
            PassSetsFlag(setup, c, cr, was);
          }
          if OnlyFills(setup.admit) && RolesPresent(registered, was.store) {
            RolesAfterPass(setup, c, cr, was, registered, req);
          }
          if cr.spec.agentsOnly.Some? {
            status := Some(before);
            return;
          }
          if |errors| > 0 {
            status := Some(Status("Misconfigured", errors));
            requeueAfter := 60;
            return;
          }
          status := Some(Status("OK", []));
      }
    }
  }

  /** The keys that a request's role and binding have as objects of a resource of that name. */
  lemma RoleKeysOf(cr: Cr, req: I.Request)
    requires cr.name == req.name
    ensures RoleKey(req) == KeyOf(cr, AgentRole) && RoleBindingKey(req) == KeyOf(cr, AgentRoleBinding)
  {
  }

  /** What a pass reports hangs on the resource and the secrets there are. */
  lemma ReportedInPass(u: Setup, c: Chance, cr: Cr, store: Store)
    requires OnlyFills(u.admit) && Orders(c, cr)
    ensures var errors := Validation(u, c, cr, store).2.errors;
            && errors == R.Errors(Context(SecretsOf(cr, store), u.crc, u.samlValid), cr.spec, c.generate)
            && (errors != [] <==> R.Misconfigured(SecretsOf(cr, store), u.samlValid, cr.spec, c.generate))
  {
    hide Validation, Normalise, R.Errors, R.Misconfigured, SecretsOf, Orders;
    var ctx := Context(SecretsOf(cr, store), u.crc, u.samlValid);
    ValidationIs(u, c, cr, store);
    R.ErrorsAre(ctx, cr.spec, c.generate);
    R.ReportsIff(ctx, cr.spec, c.generate);
  }

  /** A pass makes the role and binding of its request and takes nobody else's away. */
  lemma RolesAfterPass(u: Setup, c: Chance, cr: Cr, w: World, instances: set<I.Request>, req: I.Request)
    requires OnlyFills(u.admit) && Orders(c, cr) && Counted(cr.spec)
    requires cr.name == req.name && RolesPresent(instances, w.store)
    ensures RolesPresent(instances + {req}, Pass(u, c, cr, w).store)
  {
    hide Pass, Orders;
    PassMakesRoles(u, c, cr, w);
    RoleKeysOf(cr, req);
    forall r | r in instances
      ensures RoleKey(r) in Pass(u, c, cr, w).store && RoleBindingKey(r) in Pass(u, c, cr, w).store
    {
      PassKeepsLive(u, c, cr, w, RoleKey(r));
      PassKeepsLive(u, c, cr, w, RoleBindingKey(r));
    }
  }

  // One request at a time, Reconcile does what a thread of Instances does that is left alone.

  function NamesOf(store: Store, kind: Kind): set<string> {
    set k | k in store && k.kind == kind && k.namespace == "" :: k.name
  }

  /** A state of the interleaving model that shows these instances and this store. */
  predicate Mirrors(s: I.State, instances: set<I.Request>, store: Store) {
    s.instances == instances && s.roles == NamesOf(store, ClusterRole) && s.bindings == NamesOf(store, ClusterRoleBinding)
  }

  lemma NamedIff(store: Store, kind: Kind, n: string)
    ensures n in NamesOf(store, kind) <==> Key(kind, "", n) in store
  {
    if Key(kind, "", n) in store {
      assert Key(kind, "", n).name == n;
    }
  }

  lemma PassMakesNames(u: Setup, c: Chance, cr: Cr, w: World, id: Id)
    requires OnlyFills(u.admit) && Orders(c, cr) && NoRecords(cr.spec) && Counted(cr.spec)
    requires id.AgentRole? || id.AgentRoleBinding?
    ensures NamesOf(Pass(u, c, cr, w).store, KindOf(id)) == NamesOf(w.store, KindOf(id)) + {I.RoleName(RequestOf(cr))}
  {
    hide Pass, Orders, NamesOf, Removes, KeyOf;
    forall n: string
      ensures n in NamesOf(Pass(u, c, cr, w).store, KindOf(id)) <==> n in NamesOf(w.store, KindOf(id)) + {I.RoleName(RequestOf(cr))}
    {
      NamedIff(Pass(u, c, cr, w).store, KindOf(id), n);
      NamedIff(w.store, KindOf(id), n);
      InstalledIff(u, c, cr, w, Key(KindOf(id), "", n));
      OneOfItsKind(cr, w.deploymentDeleted, id, n);
    }
  }

  lemma OneOfItsKind(cr: Cr, deleted: bool, id: Id, n: string)
    requires id.AgentRole? || id.AgentRoleBinding?
    ensures (exists other :: Belongs(cr, other) && Key(KindOf(id), "", n) == KeyOf(cr, other)) <==> n == I.RoleName(RequestOf(cr))
    ensures !Removes(cr, deleted, Key(KindOf(id), "", n))
  {
    if n == I.RoleName(RequestOf(cr)) {
      assert Key(KindOf(id), "", n) == KeyOf(cr, id);
      assert Belongs(cr, id);
    }
  }

  /** A request whose resource is there. */
  lemma PassMirrors(u: Setup, c: Chance, cr: Cr, w: World, instances: set<I.Request>, s: I.State, first: I.Action, t: I.ThreadId,
                    rest: seq<I.Request>)
    requires OnlyFills(u.admit) && Orders(c, cr) && NoRecords(cr.spec) && Counted(cr.spec)
    requires Mirrors(s, instances, w.store) && s.holder == {} && RequestOf(cr) in s.live
    requires I.TakesUp(s, first, t, RequestOf(cr), rest)
    ensures Mirrors(I.Run(s, I.WholePass(first, t)), instances + {RequestOf(cr)}, Pass(u, c, cr, w).store)
  {
    hide Pass, Orders, I.Run, I.Do, NamesOf;
    I.WholePassEnds(s, first, t, RequestOf(cr), rest);
    PassMakesNames(u, c, cr, w, AgentRole);
    PassMakesNames(u, c, cr, w, AgentRoleBinding);
  }

  /** A request whose resource is gone; the store is what Reconcile promises to leave. */
  lemma RemovalMirrors(req: I.Request, instances: set<I.Request>, store: Store, s: I.State, first: I.Action, t: I.ThreadId,
                       rest: seq<I.Request>)
    requires Mirrors(s, instances, store) && s.holder == {} && req !in s.live && I.TakesUp(s, first, t, req, rest)
    ensures var left := instances - {req};
            Mirrors(I.Run(s, I.WholeRemoval(first, t)), left, if left == {} then store - {RoleKey(req), RoleBindingKey(req)} else store)
  {
    hide I.Run, I.Do;
    I.WholeRemovalEnds(s, first, t, req, rest);
    var after := store - {RoleKey(req), RoleBindingKey(req)};
    assert NamesOf(after, ClusterRole) == NamesOf(store, ClusterRole) - {I.RoleName(req)};
    assert NamesOf(after, ClusterRoleBinding) == NamesOf(store, ClusterRoleBinding) - {I.RoleName(req)};
  }

  lemma CountsStay(u: Setup, c: Chance, cr: Cr, store: Store)
    requires Counted(cr.spec) && Orders(c, cr)
    ensures Counted(TurnOf(u, c, cr, store).after)
  {
    N.BeforeSecretsOk(ContextIn(u, cr, WithRoles(u, c.generate, cr, store)), cr.spec);
    CountsInShape(cr.spec, BeforeSecrets(ContextIn(u, cr, WithRoles(u, c.generate, cr, store)), cr.spec).0);
  }

  lemma CountsInShape(spec: TelemetrySpec, after: TelemetrySpec)
    requires Counted(spec) && N.SameShape(spec, after)
    ensures Counted(after)
  {
    assert after.clickhouse.(s3 := None).shards == after.clickhouse.shards;
    assert after.clickhouse.(s3 := None).replicas == after.clickhouse.replicas;
  }
}
