/** One pass of Reconcile as a function: what it wants, in which order, and what the store becomes. */
module Reconcile {
  import opened Trees
  import opened LastApplied
  import opened Naming
  import opened Topology
  import opened ConfigEnvs
  import opened Spec
  import opened Validate
  import opened Objects
  import opened Inventory
  import E = Endpoints
  import I = Instances
  import M = MergeSpecs
  import N = Normalised

  /** What the builders put into objects, as far as it is not spelled out here. All of them look at the
      name and the namespace of the resource; services and fixed parts at nothing else of it. */
  datatype Builders = Builders(
    workload: (I.Request, Id, TelemetrySpec, Bindings) -> Target,
    config: (I.Request, TelemetrySpec) -> map<string, string>,
    service: (I.Request, Id) -> Target,
    fixed: (I.Request, Id) -> Tree)

  /** The world a pass runs in; ingressV1 says which of the two ingress APIs the cluster has. */
  datatype Setup = Setup(build: Builders, crc: Checksum, samlValid: string -> bool, admit: Admission, ingressV1: bool)

  /** What differs from one pass to the next: random strings and the order of a map. */
  datatype Chance = Chance(generate: Generator, order: seq<string>)

  datatype World = World(store: Store, deploymentDeleted: bool)

  /** A pass that has validated. */
  datatype Turn = Turn(setup: Setup, cr: Cr, after: TelemetrySpec, envs: Bindings, generate: Generator)

  // What is wanted of each object.

  function StorageFor(spec: TelemetrySpec, claim: ClaimId): Storage {
    match claim
    case Telemetry(_) => spec.storage
    case Shard(_, _) => spec.clickhouse.storage
    case Keeper(_) => spec.clickhouse.keeperStorage
    case Prometheus => spec.prometheusStorage
  }

  function SizeFor(spec: TelemetrySpec, claim: ClaimId): nat {
    OrDefault(StorageFor(spec, claim).size, if claim.Shard? then 100 * GIB else 10 * GIB)
  }

  function ClaimBase(className: Option<string>): Target {
    var m := map["accessModes" := Leaf(Text("ReadWriteOnce"))];
    Node(if className.None? then m else m["storageClassName" := Leaf(Text(className.value))])
  }

  function PortMap(ports: seq<E.ServicePort>): map<string, Port> {
    if ports == [] then map[]
    else
      var p := ports[|ports| - 1];
      PortMap(ports[..|ports| - 1])[p.name := Port(p.port, p.targetPort, p.nodePort)]
  }

  function PortsFor(spec: TelemetrySpec, id: Id): map<string, Port> {
    match id
    case TelemetryService => PortMap(E.ServicePorts(spec))
    case PrometheusService => map["http" := Port(9090, "http", 0)]
    case KeeperService => map["client" := Port(9181, "client", 0), "inter" := Port(9234, "inter", 0)]
    case _ => map["http" := Port(8123, "http", 0), "tcp" := Port(9000, "tcp", 0)]
  }

  /** A service without its ports. The type of the telemetry service is given by the resource. */
  function ServiceBase(u: Setup, req: I.Request, section: Service, id: Id): Target {
    var base := u.build.service(req, id);
    if id.TelemetryService? && section.serviceType != "" then Node(base.members["type" := Leaf(Text(section.serviceType))]) else base
  }

  function DesiredFor(t: Turn, id: Id): Desired {
    var (build, req) := (t.setup.build, RequestOf(t.cr));
    match KindOf(id)
    case Role => Rules(build.fixed(req, id))
    case ClusterRole => Rules(build.fixed(req, id))
    case RoleBinding => AsBuilt(build.fixed(req, id))
    case ServiceAccount => AsBuilt(build.fixed(req, id))
    case ClusterRoleBinding => AsBuilt(build.fixed(req, id))
    case ConfigMap => ConfigData(build.config(req, t.after))
    case Secret => SecretKeys(["password"])
    case StatefulSet => Replicated(build.workload(req, id, t.after, t.envs))
    case Service => Exposed(ServiceBase(t.setup, req, t.after.service, id), PortsFor(t.after, id))
    case PersistentVolumeClaim =>
      Claimed(ClaimBase(StorageFor(t.after, ClaimOf(id)).className), SizeFor(t.after, ClaimOf(id)))
    case _ => Workload(build.workload(req, id, t.after, t.envs))
  }

  function ClaimOf(id: Id): ClaimId {
    if id.Volume? then id.id else Prometheus
  }

  function OrEmpty(annotations: Option<Annotations>): Annotations {
    if annotations.None? then map[] else annotations.value
  }

  const INGRESS_CLASS: string := "kubernetes.io/ingress.class"

  /** Under v1beta1 the class is an annotation of the ingress. */
  function IngressAnnotations(ingress: Ingress, v1: bool): Annotations {
    if v1 || ingress.className.None? then ingress.annotations
    else ingress.annotations[INGRESS_CLASS := Plain(ingress.className.value)]
  }

  function AnnotationsFor(t: Turn, id: Id): Annotations {
    match id
    case TelemetryService => t.after.service.annotations
    case Route =>
      if t.after.ingress.None? then map[] else IngressAnnotations(t.after.ingress.value, t.setup.ingressV1)
    case Volume(claim) => OrEmpty(StorageFor(t.after, claim).annotations)
    case _ => map[]
  }

  function Retained(spec: TelemetrySpec, id: Id): bool {
    match id
    case AgentRole => true
    case AgentRoleBinding => true
    case Volume(claim) => StorageFor(spec, claim).retain
    case _ => false
  }

  function EnsuredAs(t: Turn, id: Id, annotations: Annotations, live: Option<Resource>): Option<Resource> {
    Ensured(live, KeyOf(t.cr, id), DesiredFor(t, id), annotations, OwnerOf(t.cr), Retained(t.after, id), t.generate, t.setup.admit)
  }

  function Refreshed(t: Turn, id: Id, live: Option<Resource>): Option<Resource> {
    EnsuredAs(t, id, AnnotationsFor(t, id), live)
  }

  // The order of things.

  datatype Item = Ensure(id: Id) | Claims(claims: seq<ClaimId>) | Remove(id: Id)

  function TelemetryClaims(spec: TelemetrySpec): seq<ClaimId> {
    seq(Count(OrOne(spec.replicas)), i requires 0 <= i => Telemetry(i))
  }

  function KeeperClaims(spec: TelemetrySpec): seq<ClaimId> {
    seq(KeeperReplicas(spec.clickhouse.keeperReplicas), i requires 0 <= i => Keeper(i))
  }

  function ShardRowClaims(shard: nat, replicas: nat): seq<ClaimId> {
    seq(replicas, i requires 0 <= i => Shard(shard, i))
  }

  function ShardClaims(shards: nat, replicas: nat): seq<ClaimId> {
    if shards == 0 then [] else ShardClaims(shards - 1, replicas) + ShardRowClaims(shards - 1, replicas)
  }

  function ClickhouseClaims(spec: TelemetrySpec): seq<ClaimId> {
    ShardClaims(Count(OrOne(spec.clickhouse.shards)), Count(OrOne(spec.clickhouse.replicas)))
  }

  function RoleItems(): seq<Item> { [Ensure(SccRole(false)), Ensure(SccRole(true))] }

  function AccountItems(c: Component): seq<Item> { [Ensure(Account(c)), Ensure(Binding(c))] }

  function NodeAgentItems(): seq<Item> { AccountItems(NodeAgents) + [Ensure(NodeAgent)] }

  function ClusterAgentItems(): seq<Item> {
    AccountItems(ClusterAgents) + [Ensure(AgentRole), Ensure(AgentRoleBinding), Ensure(ClusterAgent)]
  }

  function AgentItems(): seq<Item> { NodeAgentItems() + ClusterAgentItems() }

  function TelemetrySetItems(): seq<Item> { [Ensure(Config), Ensure(TelemetrySet), Ensure(TelemetryService)] }

  function TelemetryItems(spec: TelemetrySpec): seq<Item> {
    AccountItems(Telemetries) + [Claims(TelemetryClaims(spec))] + TelemetrySetItems()
  }

  function OldDeploymentItems(deleted: bool): seq<Item> { if deleted then [] else [Remove(OldDeployment)] }

  function RouteItems(spec: TelemetrySpec): seq<Item> {
    [if spec.ingress.None? then Remove(Route) else Ensure(Route)]
  }

  function PrometheusServerItems(): seq<Item> {
    [Claims([Prometheus]), Ensure(PrometheusServer), Ensure(PrometheusService)]
  }

  function PrometheusItems(spec: TelemetrySpec): seq<Item> {
    if spec.externalPrometheus || spec.storeMetricsInClickhouse then []
    else AccountItems(Prometheuses) + PrometheusServerItems()
  }

  function PasswordSecret(name: string): Id { SecretOf(name + "-clickhouse") }

  function ShardSetItems(shards: nat): seq<Item> {
    seq(shards, i requires 0 <= i => Ensure(ShardSet(i)))
  }

  function KeeperSetItems(spec: TelemetrySpec): seq<Item> {
    [Ensure(KeeperService), Claims(KeeperClaims(spec)), Ensure(KeeperSet)]
  }

  function KeeperItems(spec: TelemetrySpec): seq<Item> { AccountItems(Keepers) + KeeperSetItems(spec) }

  function ShardVolumeItems(spec: TelemetrySpec): seq<Item> {
    [Ensure(ShardService), Claims(ClickhouseClaims(spec))]
  }

  function ShardItems(spec: TelemetrySpec): seq<Item> {
    AccountItems(Clickhouses) + ShardVolumeItems(spec)
    + ShardSetItems(AtLeastOne(spec.clickhouse.shards)) + [Ensure(ClickhouseService)]
  }

  function ClickhouseItems(name: string, spec: TelemetrySpec): seq<Item> {
    if spec.externalClickhouse then [] else [Ensure(PasswordSecret(name))] + KeeperItems(spec) + ShardItems(spec)
  }

  /** Everything after validation, in order. */
  function Plan(name: string, spec: TelemetrySpec, deleted: bool): seq<Item> {
    AgentItems()
    + if spec.agentsOnly.Some? then []
      else TelemetryItems(spec) + OldDeploymentItems(deleted) + RouteItems(spec)
           + PrometheusItems(spec) + ClickhouseItems(name, spec)
  }

  // What becomes of the store.

  function Live(store: Store, key: Key): Option<Resource> { if key in store then Some(store[key]) else None }

  function Write(store: Store, key: Key, o: Option<Resource>): Store {
    if o.None? then store - {key} else store[key := o.value]
  }

  /** The annotation map shared by the claims of a loop, after one more of them. */
  function SharedNext(t: Turn, claim: ClaimId, shared: Option<Annotations>, live: Option<Resource>): Option<Annotations> {
    if shared.None? || live.Some? then shared
    else
      var target := ClaimSpec(ClaimBase(StorageFor(t.after, claim).className), SizeFor(t.after, claim));
      Some(M.SharedAfter(shared.value, M.Claim(target, None)))
  }

  function DoClaims(t: Turn, claims: seq<ClaimId>, shared: Option<Annotations>, store: Store): Store
    decreases |claims|
  {
    if claims == [] then store
    else
      var key := KeyOf(t.cr, Volume(claims[0]));
      var after := Write(store, key, EnsuredAs(t, Volume(claims[0]), OrEmpty(shared), Live(store, key)));
      DoClaims(t, claims[1..], SharedNext(t, claims[0], shared, Live(store, key)), after)
  }

  function Do(t: Turn, item: Item, store: Store): Store {
    match item
    case Ensure(id) => Write(store, KeyOf(t.cr, id), Refreshed(t, id, Live(store, KeyOf(t.cr, id))))
    case Remove(id) => Write(store, KeyOf(t.cr, id), None)
    case Claims(claims) =>
      if claims == [] then store else DoClaims(t, claims, StorageFor(t.after, claims[0]).annotations, store)
  }

  function DoAll(t: Turn, items: seq<Item>, store: Store): Store
    decreases |items|
  {
    if items == [] then store
    else Do(t, items[|items| - 1], DoAll(t, items[..|items| - 1], store))
  }

  // Secrets.

  function SecretKey(cr: Cr, name: string): (k: Key)
    ensures k == KeyOf(cr, SecretOf(name))
  {
    Key(Kind.Secret, cr.namespace, name)
  }

  function SecretsOf(cr: Cr, store: Store): Secrets {
    map k | k in store && k == SecretKey(cr, k.name) :: k.name := store[k].data
  }

  function CreateSecret(t: Turn, name: string, keys: seq<string>, store: Store): Store {
    var key := SecretKey(t.cr, name);
    Write(store, key, Ensured(Live(store, key), key, SecretKeys(keys), map[], OwnerOf(t.cr), true, t.generate, t.setup.admit))
  }

  function CreateSecrets(t: Turn, wanted: map<string, seq<string>>, order: seq<string>, store: Store): Store
    requires forall n | n in order :: n in wanted
    decreases |order|
  {
    if order == [] then store
    else
      var n := order[|order| - 1];
      CreateSecret(t, n, wanted[n], CreateSecrets(t, wanted, order[..|order| - 1], store))
  }

  // The pass.

  function ContextIn(u: Setup, cr: Cr, store: Store): Context {
    Context(SecretsOf(cr, store), u.crc, u.samlValid)
  }

  function StartOf(u: Setup, generate: Generator, cr: Cr): Turn { Turn(u, cr, cr.spec, map[], generate) }

  function WithRoles(u: Setup, generate: Generator, cr: Cr, store: Store): Store {
    DoAll(StartOf(u, generate, cr), RoleItems(), store)
  }

  /** Some order of a map's keys. */
  predicate OrderOf(order: seq<string>, wanted: map<string, seq<string>>) {
    && (set n | n in order) == wanted.Keys
    && (forall i, j | 0 <= i < j < |order| :: order[i] != order[j])
  }

  /** The order in which a pass creates the secrets the projects want. */
  predicate Orders(c: Chance, cr: Cr) { OrderOf(c.order, N.WantProjects(map[], cr.spec.projects)) }

  /** Roles, then validation with the secrets it creates on the way. */
  function Validation(u: Setup, c: Chance, cr: Cr, store: Store): (Store, TelemetrySpec, Log)
    requires Orders(c, cr)
  {
    var ready := WithRoles(u, c.generate, cr, store);
    var (before, log) := BeforeSecrets(ContextIn(u, cr, ready), cr.spec);
    N.WantedDependsOnSpecOnly(ContextIn(u, cr, ready), cr.spec, c.generate);
    assert forall n | n in c.order :: n in set n | n in c.order;
    var created := CreateSecrets(StartOf(u, c.generate, cr), log.apiKeySecrets, c.order, ready);
    var (after, log) := AfterSecrets(ContextIn(u, cr, created), before, log);
    (created, after, log)
  }

  /** Counts the builders can work with: indexing the first of no claims panics. */
  predicate Counted(spec: TelemetrySpec) {
    spec.replicas >= 0 && spec.clickhouse.shards >= 0 && spec.clickhouse.replicas >= 0
  }

  function TurnOf(u: Setup, c: Chance, cr: Cr, store: Store): Turn
    requires Orders(c, cr)
  {
    var (_, after, log) := Validation(u, c, cr, store);
    Turn(u, cr, after, log.envs, c.generate)
  }

  function Pass(u: Setup, c: Chance, cr: Cr, w: World): World
    requires Counted(cr.spec) && Orders(c, cr)
  {
    var t := TurnOf(u, c, cr, w.store);
    World(DoAll(t, Plan(cr.name, t.after, w.deploymentDeleted), Validation(u, c, cr, w.store).0),
          w.deploymentDeleted || t.after.agentsOnly.None?)
  }
}
