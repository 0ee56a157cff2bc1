/** What a pass guarantees end to end: the S3 cache fits into the ClickHouse claims, and the agents find
    the port they are sent to. */
module EndToEnd {
  import opened Trees
  import opened Naming
  import opened Topology
  import opened Spec
  import opened Validate
  import opened Objects
  import opened Inventory
  import opened Reconcile
  import opened SecretsInPass
  import opened Settling
  import opened Passes
  import opened Installation
  import opened Fulfilment
  import E = Endpoints
  import N = Normalised

  // The cache and the claims.

  predicate Sized(o: Option<Resource>, size: nat) { o.Some? && StorageOf(o.value.spec) >= size }

  lemma PassSizesShard(u: Setup, c: Chance, cr: Cr, w: World, s: nat, r: nat)
    requires OnlyFills(u.admit) && Orders(c, cr) && NoRecords(cr.spec) && Counted(cr.spec)
    requires cr.spec.agentsOnly.None? && !cr.spec.externalClickhouse
    requires s < OrOne(cr.spec.clickhouse.shards) && r < OrOne(cr.spec.clickhouse.replicas)
    requires Begins(Volume(Shard(s, r)), Live(w.store, KeyOf(cr, Volume(Shard(s, r)))))
    ensures Sized(Live(Pass(u, c, cr, w).store, KeyOf(cr, Volume(Shard(s, r)))),
                  SizeFor(TurnOf(u, c, cr, w.store).after, Shard(s, r)))
  {
    hide Pass, TurnOf, KeyOf, Begins;
    PassFulfils(u, c, cr, w, Volume(Shard(s, r)));
  }

  /** If a pass reports no S3 cache error, the cache it configures is smaller than what every single
      ClickHouse claim requests afterwards, from whatever size the claims had grown to. */
  lemma CacheFitsEveryClaim(u: Setup, c: Chance, cr: Cr, w: World, s: nat, r: nat)
    requires OnlyFills(u.admit) && Orders(c, cr) && NoRecords(cr.spec) && Counted(cr.spec)
    requires cr.spec.agentsOnly.None? && !cr.spec.externalClickhouse
    requires s < OrOne(cr.spec.clickhouse.shards) && r < OrOne(cr.spec.clickhouse.replicas)
    requires Begins(Volume(Shard(s, r)), Live(w.store, KeyOf(cr, Volume(Shard(s, r)))))
    ensures var (_, after, log) := Validation(u, c, cr, w.store);
            var claim := Live(Pass(u, c, cr, w).store, KeyOf(cr, Volume(Shard(s, r))));
            claim.Some? && (S3_CACHE_ERROR !in log.errors && after.clickhouse.s3.Some? ==>
              N.CacheSize(after.clickhouse.s3.value) < StorageOf(claim.value.spec))
  {
    hide Pass, BeforeSecrets, AfterSecrets, Plan, Expand, KeyOf;
    var after := TurnOf(u, c, cr, w.store).after;
    TurnFacts(u, c, cr, w.store);
    ShapeCounts(cr.spec, after);
    CacheChecked(u, c, cr, w.store);
    PassSizesShard(u, c, cr, w, s, r);
    CacheFits(cr.spec, after, Live(Pass(u, c, cr, w).store, KeyOf(cr, Volume(Shard(s, r)))), Shard(s, r));
  }

  lemma CacheFits(spec: TelemetrySpec, after: TelemetrySpec, o: Option<Resource>, claim: ClaimId)
    requires claim.Shard? && N.SameCache(spec, after)
    requires after.clickhouse.storage == spec.clickhouse.storage && Sized(o, SizeFor(after, claim))
    ensures !N.CacheTooBig(spec) && after.clickhouse.s3.Some? ==>
              N.CacheSize(after.clickhouse.s3.value) < StorageOf(o.value.spec)
  {
  }

  lemma ShapeCounts(spec: TelemetrySpec, after: TelemetrySpec)
    requires N.SameShape(spec, after)
    ensures after.clickhouse.shards == spec.clickhouse.shards && after.clickhouse.replicas == spec.clickhouse.replicas
    ensures after.clickhouse.storage == spec.clickhouse.storage
    ensures after.agentsOnly == spec.agentsOnly && after.externalClickhouse == spec.externalClickhouse
  {
    assert after.clickhouse.(s3 := None).shards == after.clickhouse.shards;
    assert after.clickhouse.(s3 := None).replicas == after.clickhouse.replicas;
    assert after.clickhouse.(s3 := None).storage == after.clickhouse.storage;
  }

  lemma CacheChecked(u: Setup, c: Chance, cr: Cr, store: Store)
    requires OnlyFills(u.admit) && Orders(c, cr)
    ensures N.SameCache(cr.spec, TurnOf(u, c, cr, store).after)
    ensures N.CacheTooBig(cr.spec) ==> S3_CACHE_ERROR in Validation(u, c, cr, store).2.errors
  {
    ValidationNormalises(u, c, cr, store);
    N.CacheSizeIsChecked(ContextIn(u, cr, WithRoles(u, c.generate, cr, store)), cr.spec, c.generate);
  }

  // The agents and the service.

  /** A stored service that serves a port under a name, to a target port. */
  predicate Offers(spec: Tree, name: string, port: int, target: string) {
    var entry := Member(Member(Some(spec), "ports"), name);
    Member(entry, "port") == Some(Leaf(Number(port))) && Member(entry, "targetPort") == Some(Leaf(Text(target)))
  }

  lemma {:induction false} PortMapHas(ports: seq<E.ServicePort>, i: nat)
    requires i < |ports| && E.UniqueNames(ports)
    ensures var m := PortMap(ports); var p := ports[i];
            p.name in m && m[p.name] == Port(p.port, p.targetPort, p.nodePort)
    decreases |ports|
  {
    var front := ports[..|ports| - 1];
    if i < |ports| - 1 {
      assert forall a, b | 0 <= a < b < |front| :: front[a] == ports[a] && front[b] == ports[b];
      PortMapHas(front, i);
    }
  }

  lemma MetPortIsOffered(spec: Tree, ports: map<string, Port>, name: string)
    requires PortsMeet(spec, ports) && name in ports
    ensures Offers(spec, name, ports[name].port, ports[name].targetPort)
  {
    var entry := Member(Some(spec), "ports").value.members[name];
    assert "port" in WithoutNodePort(PortTree(ports[name])).members;
    assert Member(Some(WithoutNodePort(entry)), "port") == Member(Some(entry), "port");
    assert Member(Some(WithoutNodePort(entry)), "targetPort") == Member(Some(entry), "targetPort");
  }

  /** The stored service offers the port of the agents' URL under the name of its scheme, and sends it to
      a port the container names. */
  predicate ServesAgents(after: TelemetrySpec, service: Tree) {
    exists target | target in E.ContainerPorts(after) ::
      Offers(service, E.AgentScheme(after), E.AgentPort(after), target)
  }

  lemma AgentPortAt(after: TelemetrySpec) returns (i: nat)
    requires N.ServingOk(after)
    ensures var ports := E.ServicePorts(after);
            && i < |ports| && ports[i].name == E.AgentScheme(after) && ports[i].port == E.AgentPort(after)
            && ports[i].targetPort in E.ContainerPorts(after) && E.UniqueNames(ports)
  {
    hide N.ServingOk, E.AgentScheme, E.AgentPort, E.ServicePorts, E.ContainerPorts, E.Serves;
    E.ServingAgrees(after);
    i :| 0 <= i < |E.ServicePorts(after)|
         && E.ServicePorts(after)[i].name == E.AgentScheme(after) && E.ServicePorts(after)[i].port == E.AgentPort(after);
  }

  lemma MetServiceServes(after: TelemetrySpec, service: Tree)
    requires N.ServingOk(after) && PortsMeet(service, PortMap(E.ServicePorts(after)))
    ensures ServesAgents(after, service)
  {
    hide PortMap, PortsMeet, N.ServingOk, Offers, E.AgentScheme, E.AgentPort, E.ServicePorts, E.ContainerPorts;
    var ports := E.ServicePorts(after);
    var i := AgentPortAt(after);
    PortMapHas(ports, i);
    MetPortIsOffered(service, PortMap(ports), ports[i].name);
    assert ports[i].targetPort in E.ContainerPorts(after);
  }

  lemma DoneServiceMeets(t: Turn, id: Id, o: Option<Resource>)
    requires Done(t, id, o) && KindOf(id).Service?
    ensures o.Some? && PortsMeet(o.value.spec, PortsFor(t.after, id))
  {
    hide PortMap, PortsMeet, PortsFor;
  }

  lemma TurnServes(u: Setup, c: Chance, cr: Cr, store: Store)
    requires OnlyFills(u.admit) && Orders(c, cr)
    ensures N.ServingOk(TurnOf(u, c, cr, store).after)
  {
    ValidationNormalises(u, c, cr, store);
    N.NormalisedIsWellFormed(ContextIn(u, cr, WithRoles(u, c.generate, cr, store)), cr.spec, c.generate);
  }

  /** The name an object is reached under in the cluster. */
  function HostOf(key: Key): string { key.name + "." + key.namespace }

  function PortText(port: int): string { if port < 0 then "-" + Decimal(-port) else Decimal(port) }

  /** When the telemetry service is the operator's own, then after any pass both agents are given a URL
      whose host is the service in the store, whose scheme is the name of one of its ports, and whose
      port is that port's number. TLS may have been dropped for want of its secrets. */
  lemma AgentsFindTheService(u: Setup, c: Chance, cr: Cr, w: World)
    requires OnlyFills(u.admit) && Orders(c, cr) && NoRecords(cr.spec) && Counted(cr.spec)
    requires cr.spec.agentsOnly.None?
    requires Begins(TelemetryService, Live(w.store, KeyOf(cr, TelemetryService)))
    ensures var key := KeyOf(cr, TelemetryService);
            var service, after := Live(Pass(u, c, cr, w).store, key), TurnOf(u, c, cr, w.store).after;
            && service.Some? && ServesAgents(after, service.value.spec)
            && E.AgentURL(cr.name, cr.namespace, after)
               == E.AgentScheme(after) + "://" + HostOf(key) + ":" + PortText(E.AgentPort(after))
            && E.AgentScheme(after) == if after.tls.Some? || cr.spec.httpDisabled then "https" else "http"
  {
    hide Pass, TurnOf, PortMap, PortsMeet, N.ServingOk, Done, ServesAgents, Begins, E.AgentScheme, E.AgentPort;
    var t := TurnOf(u, c, cr, w.store);
    PassFulfils(u, c, cr, w, TelemetryService);
    TurnServes(u, c, cr, w.store);
    var service := Live(Pass(u, c, cr, w).store, KeyOf(cr, TelemetryService));
    DoneServiceMeets(t, TelemetryService, service);
    MetServiceServes(t.after, service.value.spec);
    URLText(cr, t.after);
    SchemeText(u, c, cr, w.store);
  }

  lemma SchemeText(u: Setup, c: Chance, cr: Cr, store: Store)
    requires OnlyFills(u.admit) && Orders(c, cr) && NoRecords(cr.spec)
    ensures var after := TurnOf(u, c, cr, store).after;
            E.AgentScheme(after) == if after.tls.Some? || cr.spec.httpDisabled then "https" else "http"
  {
    hide TurnOf;
    TurnFacts(u, c, cr, store);
  }

  lemma URLText(cr: Cr, after: TelemetrySpec)
    ensures E.AgentURL(cr.name, cr.namespace, after)
            == E.AgentScheme(after) + "://" + HostOf(KeyOf(cr, TelemetryService)) + ":" + PortText(E.AgentPort(after))
  {
    hide E.AgentScheme, E.AgentPort;
    var scheme, port := E.AgentScheme(after), E.AgentPort(after);
    assert scheme + "://" + cr.name + "-telemetry." + cr.namespace + ":" + PortText(port)
           == scheme + "://" + HostOf(KeyOf(cr, TelemetryService)) + ":" + PortText(port);
  }

  // Prometheus, ClickHouse and the keepers.

  /** After any pass the service is in the store and offers the port. */
  predicate Reachable(u: Setup, c: Chance, cr: Cr, w: World, id: Id, name: string, port: int)
    requires Counted(cr.spec) && Orders(c, cr)
  {
    var service := Live(Pass(u, c, cr, w).store, KeyOf(cr, id));
    service.Some? && Offers(service.value.spec, name, port, name)
  }

  lemma ServiceReachable(u: Setup, c: Chance, cr: Cr, w: World, id: Id, name: string)
    requires OnlyFills(u.admit) && Orders(c, cr) && NoRecords(cr.spec) && Counted(cr.spec)
    requires KindOf(id).Service? && !id.TelemetryService? && Belongs(cr, id) && Begins(id, Live(w.store, KeyOf(cr, id)))
    requires var ports := PortsFor(cr.spec, id); name in ports && ports[name].targetPort == name
    ensures Reachable(u, c, cr, w, id, name, PortsFor(cr.spec, id)[name].port)
  {
    hide Pass, TurnOf, PortsMeet, Done, Begins, Belongs, KeyOf;
    PassFulfils(u, c, cr, w, id);
    var service := Live(Pass(u, c, cr, w).store, KeyOf(cr, id));
    DoneServiceMeets(TurnOf(u, c, cr, w.store), id, service);
    MetPortIsOffered(service.value.spec, PortsFor(cr.spec, id), name);
  }

  /** With Prometheus its own, the telemetry container's URL for it is the host of the service in the
      store and one of the service's ports. */
  lemma PrometheusIsFound(u: Setup, c: Chance, cr: Cr, w: World)
    requires OnlyFills(u.admit) && Orders(c, cr) && NoRecords(cr.spec) && Counted(cr.spec)
    requires OwnMetrics(cr.spec) && Begins(PrometheusService, Live(w.store, KeyOf(cr, PrometheusService)))
    ensures E.PrometheusURL(cr.name, cr.namespace) == "http://" + HostOf(KeyOf(cr, PrometheusService)) + ":9090"
    ensures Reachable(u, c, cr, w, PrometheusService, "http", 9090)
  {
    hide Pass, Begins;
    ServiceReachable(u, c, cr, w, PrometheusService, "http");
    var key := KeyOf(cr, PrometheusService);
    assert E.PrometheusURL(cr.name, cr.namespace) == "http://" + HostOf(key) + ":9090";
  }

  /** With ClickHouse its own: after any pass the StatefulSets and services of ClickHouse and its keepers
      are in the store, and the services offer the ports that the configurations name. */
  lemma ClickhouseIsFound(u: Setup, c: Chance, cr: Cr, w: World, s: nat)
    requires OnlyFills(u.admit) && Orders(c, cr) && NoRecords(cr.spec) && Counted(cr.spec)
    requires Belongs(cr, ShardSet(s))
    requires Begins(ClickhouseService, Live(w.store, KeyOf(cr, ClickhouseService)))
    requires Begins(ShardService, Live(w.store, KeyOf(cr, ShardService)))
    requires Begins(KeeperService, Live(w.store, KeyOf(cr, KeeperService)))
    ensures Live(Pass(u, c, cr, w).store, KeyOf(cr, ShardSet(s))).Some? && Live(Pass(u, c, cr, w).store, KeyOf(cr, KeeperSet)).Some?
    ensures Reachable(u, c, cr, w, ClickhouseService, "tcp", 9000) && Reachable(u, c, cr, w, ShardService, "tcp", 9000)
    ensures Reachable(u, c, cr, w, KeeperService, "client", 9181) && Reachable(u, c, cr, w, KeeperService, "inter", 9234)
  {
    hide Pass, Begins, Reachable, KeyOf;
    PassMakes(u, c, cr, w, ShardSet(s));
    PassMakes(u, c, cr, w, KeeperSet);
    ClickhousePorts(u, c, cr, w, ClickhouseService);
    ClickhousePorts(u, c, cr, w, ShardService);
    KeeperPorts(u, c, cr, w);
  }

  lemma ClickhousePorts(u: Setup, c: Chance, cr: Cr, w: World, id: Id)
    requires OnlyFills(u.admit) && Orders(c, cr) && NoRecords(cr.spec) && Counted(cr.spec)
    requires OwnClickhouse(cr.spec) && (id.ClickhouseService? || id.ShardService?) && Begins(id, Live(w.store, KeyOf(cr, id)))
    ensures Reachable(u, c, cr, w, id, "tcp", 9000)
  {
    hide Pass, Begins, Reachable, KeyOf;
    ServiceReachable(u, c, cr, w, id, "tcp");
  }

  lemma KeeperPorts(u: Setup, c: Chance, cr: Cr, w: World)
    requires OnlyFills(u.admit) && Orders(c, cr) && NoRecords(cr.spec) && Counted(cr.spec)
    requires OwnClickhouse(cr.spec) && Begins(KeeperService, Live(w.store, KeyOf(cr, KeeperService)))
    ensures Reachable(u, c, cr, w, KeeperService, "client", 9181) && Reachable(u, c, cr, w, KeeperService, "inter", 9234)
  {
    hide Pass, Begins, Reachable, KeyOf;
    ServiceReachable(u, c, cr, w, KeeperService, "client");
    ServiceReachable(u, c, cr, w, KeeperService, "inter");
  }

  /** The addresses in the configurations are those: the telemetry container's is the ClickHouse service,
      and every server's and keeper's is a pod of the StatefulSet, under the headless service. */
  lemma AddressesNameThem(cr: Cr, s: nat, r: nat, k: nat)
    ensures E.ClickhouseAddress(cr.name, cr.namespace) == HostOf(KeyOf(cr, ClickhouseService)) + ":9000"
    ensures ShardHost(cr.name, cr.namespace, s, r) == PodName(KeyOf(cr, ShardSet(s)).name, r) + "." + HostOf(KeyOf(cr, ShardService))
    ensures KeeperHost(cr.name, cr.namespace, k) == PodName(KeyOf(cr, KeeperSet).name, k) + "." + HostOf(KeyOf(cr, KeeperService))
  {
    AddressText(cr);
    HeadlessNames(cr);
    PodHostText(PodName(KeyOf(cr, ShardSet(s)).name, r), KeyOf(cr, ShardService).name, cr.namespace);
    PodHostText(PodName(KeyOf(cr, KeeperSet).name, k), KeyOf(cr, KeeperService).name, cr.namespace);
    hide PodName, Decimal, PodHost, Suffix;
  }

  lemma AddressText(cr: Cr)
    ensures E.ClickhouseAddress(cr.name, cr.namespace) == HostOf(KeyOf(cr, ClickhouseService)) + ":9000"
  {
    assert cr.name + "-clickhouse." == cr.name + "-clickhouse" + ".";
  }

  lemma HeadlessNames(cr: Cr)
    ensures KeyOf(cr, ShardService) == Key(Kind.Service, cr.namespace, cr.name + "-clickhouse-headless")
    ensures KeyOf(cr, KeeperService) == Key(Kind.Service, cr.namespace, cr.name + "-clickhouse-keeper-headless")
    ensures KeyOf(cr, KeeperSet).name == KeeperSetName(cr.name)
  {
  }

  lemma PodHostText(pod: string, service: string, namespace: string)
    ensures PodHost(pod, service, namespace) == pod + "." + (service + "." + namespace)
  {
  }
}
