/** What the objects of an installation hold after a pass, read off the resource. */
module Contents {
  import opened Trees
  import opened ThreeWayMerge
  import opened LastApplied
  import opened ConfigEnvs
  import opened Naming
  import opened Topology
  import opened Spec
  import opened Validate
  import opened Objects
  import opened Inventory
  import opened Reconcile
  import opened Settling
  import opened Passes
  import opened Installation
  import opened StoreRuns
  import opened Fulfilment
  import opened EndToEnd
  import E = Endpoints
  import I = Instances
  import N = Normalised
  import S = Stability

  /** The spec and the environment of a pass: validation against the secrets in the store. */
  function ValidatedIn(u: Setup, c: Chance, cr: Cr, store: Store): (TelemetrySpec, Log) {
    Normalise(Context(SecretsOf(cr, store), u.crc, u.samlValid), cr.spec, c.generate)
  }

  lemma TurnIs(u: Setup, c: Chance, cr: Cr, store: Store)
    requires OnlyFills(u.admit) && Orders(c, cr)
    ensures var (after, log) := ValidatedIn(u, c, cr, store);
            TurnOf(u, c, cr, store) == Turn(u, cr, after, log.envs, c.generate)
  {
    hide Validation, Normalise, SecretsOf, Orders;
    ValidationIs(u, c, cr, store);
  }

  // What the builders make.

  /** What the builder makes of the validated spec and its environment is there, whatever else is. */
  predicate HoldsBuilt(u: Setup, cr: Cr, id: Id, spec: TelemetrySpec, envs: Bindings, o: Resource) {
    var req := I.Request(cr.namespace, cr.name);
    match id
    case SccRole(_) => o.spec == u.build.fixed(req, id)
    case AgentRole => o.spec == u.build.fixed(req, id)
    case Config => o.data == u.build.config(req, spec)
    case NodeAgent => Covers(o.spec, u.build.workload(req, id, spec, envs))
    case ClusterAgent => Covers(o.spec, u.build.workload(req, id, spec, envs))
    case PrometheusServer => Covers(o.spec, u.build.workload(req, id, spec, envs))
    case Route => Covers(o.spec, u.build.workload(req, id, spec, envs))
    case TelemetrySet => CoversExcept(o.spec, u.build.workload(req, id, spec, envs), "volumeClaimTemplates")
    case KeeperSet => CoversExcept(o.spec, u.build.workload(req, id, spec, envs), "volumeClaimTemplates")
    case ShardSet(_) => CoversExcept(o.spec, u.build.workload(req, id, spec, envs), "volumeClaimTemplates")
    case PrometheusService => CoversExcept(o.spec, u.build.service(req, id), "ports")
    case KeeperService => CoversExcept(o.spec, u.build.service(req, id), "ports")
    case ShardService => CoversExcept(o.spec, u.build.service(req, id), "ports")
    case ClickhouseService => CoversExcept(o.spec, u.build.service(req, id), "ports")
    case _ => true
  }

  lemma DoneHoldsBuilt(t: Turn, id: Id, o: Resource)
    requires Done(t, id, Some(o))
    ensures HoldsBuilt(t.setup, t.cr, id, t.after, t.envs, o)
  {
    hide Covers, CoversExcept;
  }

  /** After any pass the roles, the configuration, the workloads and the fixed services hold what their
      builders make of the resource as validated against the secrets in the store. */
  lemma PassHoldsBuilt(u: Setup, c: Chance, cr: Cr, w: World, id: Id)
    requires OnlyFills(u.admit) && Orders(c, cr) && NoRecords(cr.spec) && Counted(cr.spec)
    requires Belongs(cr, id) && !id.SecretOf? && Begins(id, Live(w.store, KeyOf(cr, id)))
    ensures var o := Live(Pass(u, c, cr, w).store, KeyOf(cr, id));
            var (after, log) := ValidatedIn(u, c, cr, w.store);
            o.Some? && HoldsBuilt(u, cr, id, after, log.envs, o.value)
  {
    hide Pass, TurnOf, Orders, KeyOf, Belongs, Begins, Done, HoldsBuilt, ValidatedIn;
    TurnIs(u, c, cr, w.store);
    PassFulfils(u, c, cr, w, id);
    var o := Live(Pass(u, c, cr, w).store, KeyOf(cr, id));
    DoneIsLive(TurnOf(u, c, cr, w.store), id, o);
    DoneHoldsBuilt(TurnOf(u, c, cr, w.store), id, o.value);
  }

  lemma DoneIsLive(t: Turn, id: Id, o: Option<Resource>)
    requires Done(t, id, o)
    ensures o.Some?
  {
  }

  // Accounts and bindings, which are left alone once they are there.

  predicate IsPlain(id: Id) { id.Account? || id.Binding? || id.AgentRoleBinding? }

  lemma PlainEnsured(t: Turn, id: Id, annotations: Annotations, o: Option<Resource>)
    requires OnlyFills(t.setup.admit) && IsPlain(id)
    ensures var y := EnsuredAs(t, id, annotations, o);
            && y.Some? && (o.None? ==> Covers(y.value.spec, t.setup.build.fixed(RequestOf(t.cr), id)))
            && (o.Some? ==> Covers(y.value.spec, o.value.spec) && y.value.data == o.value.data && y.value.annotations == o.value.annotations)
  {
    hide Covers;
    var key, start := KeyOf(t.cr, id), if o.Some? then o.value else Built(DesiredFor(t, id), annotations);
    var owned := Own(start, OwnerOf(t.cr), Retained(t.after, id));
    CoversItself(start.spec);
    assert Filled(key, owned, t.setup.admit(key, owned));
  }

  lemma {:induction false} PlainRun(t: Turn, id: Id, o: Resource, events: seq<S.Event>)
    requires OnlyFills(t.setup.admit) && IsPlain(id) && PassesFor(t, id, events)
    ensures Covers(S.Run(SettingOf(t, id), o, events).spec, o.spec)
    decreases |events|
  {
    hide S.Next, EnsuredAs, Covers, DesiredFor;
    if events == [] {
      CoversItself(o.spec);
    } else {
      var prior, e := events[..|events| - 1], events[|events| - 1];
      var before := S.Run(SettingOf(t, id), o, prior);
      assert IsPassFor(t, id, e);
      PlainRun(t, id, o, prior);
      PlainEnsured(t, id, e.annotations, Some(before));
      EnsuredIsEvent(t, id, e.annotations, before);
      CoversIsTransitive(S.Run(SettingOf(t, id), o, events).spec, before.spec, o.spec);
    }
  }

  lemma PlainStory(t: Turn, id: Id, before: Option<Resource>, after: Option<Resource>, annotations: Annotations, events: seq<S.Event>)
    requires OnlyFills(t.setup.admit) && IsPlain(id) && Story(t, id, before, after, annotations, events)
    ensures after.Some?
    ensures Covers(after.value.spec, if before.Some? then before.value.spec else t.setup.build.fixed(RequestOf(t.cr), id))
  {
    hide Covers, EnsuredAs;
    if before.Some? {
      PlainRun(t, id, before.value, events);
    } else {
      var created := EnsuredAs(t, id, annotations, None);
      PlainEnsured(t, id, annotations, None);
      PlainRun(t, id, created.value, events);
      CoversIsTransitive(after.value.spec, created.value.spec, t.setup.build.fixed(RequestOf(t.cr), id));
    }
  }

  /** After any pass accounts and bindings are as built when they are new, and else as they were. */
  lemma PassKeepsPlain(u: Setup, c: Chance, cr: Cr, w: World, id: Id)
    requires OnlyFills(u.admit) && Orders(c, cr) && NoRecords(cr.spec) && Counted(cr.spec)
    requires IsPlain(id) && Belongs(cr, id)
    ensures var before, after := Live(w.store, KeyOf(cr, id)), Live(Pass(u, c, cr, w).store, KeyOf(cr, id));
            && after.Some?
            && Covers(after.value.spec, if before.Some? then before.value.spec else u.build.fixed(I.Request(cr.namespace, cr.name), id))
  {
    hide Pass, TurnOf, Orders, KeyOf, Belongs, Story, Covers;
    TurnFacts(u, c, cr, w.store);
    var annotations, events := PassStory(u, c, cr, w, id);
    PlainStory(TurnOf(u, c, cr, w.store), id, Live(w.store, KeyOf(cr, id)), Live(Pass(u, c, cr, w).store, KeyOf(cr, id)),
               annotations, events);
  }

  // Claims.

  /** A claim of the section: at least its size, never less than before, of its class. */
  predicate HoldsClaim(before: Option<Resource>, after: Option<Resource>, section: Storage, default: nat) {
    && after.Some?
    && StorageOf(after.value.spec) == S.Larger(Requested(before), if section.size != 0 then section.size else default)
    && Member(Some(after.value.spec), "accessModes") == Some(Leaf(Text("ReadWriteOnce")))
    && (section.className.Some? ==> Member(Some(after.value.spec), "storageClassName") == Some(Leaf(Text(section.className.value))))
  }

  lemma DoneHoldsClaim(t: Turn, claim: ClaimId, before: Option<Resource>, after: Option<Resource>)
    requires Done(t, Volume(claim), after)
    requires StorageOf(after.value.spec) == S.Larger(Requested(before), SizeFor(t.after, claim))
    ensures HoldsClaim(before, after, StorageFor(t.after, claim), if claim.Shard? then 100 * GIB else 10 * GIB)
  {
    hide StorageOf, StorageFor;
    assert "accessModes" in ClaimBase(StorageFor(t.after, claim).className).members;
  }

  lemma GrownSize(o: Option<Resource>, after: Option<Resource>, size: nat, claim: ClaimId)
    requires Grows(o, after, size, true) && Begins(Volume(claim), o)
    ensures after.Some? && StorageOf(after.value.spec) == S.Larger(Requested(o), size)
  {
    hide StorageOf;
  }

  lemma PassHoldsClaim(u: Setup, c: Chance, cr: Cr, w: World, claim: ClaimId)
    requires OnlyFills(u.admit) && Orders(c, cr) && NoRecords(cr.spec) && Counted(cr.spec)
    requires ClaimBelongs(cr.spec, claim) && Begins(Volume(claim), Live(w.store, KeyOf(cr, Volume(claim))))
    ensures HoldsClaim(Live(w.store, KeyOf(cr, Volume(claim))), Live(Pass(u, c, cr, w).store, KeyOf(cr, Volume(claim))),
                       StorageFor(TurnOf(u, c, cr, w.store).after, claim), if claim.Shard? then 100 * GIB else 10 * GIB)
  {
    hide Pass, TurnOf, Orders, KeyOf, ClaimBelongs, Done, HoldsClaim, SizeFor, StorageOf, Grows, Begins, StorageFor, Requested, Live;
    var t := TurnOf(u, c, cr, w.store);
    var before, after := Live(w.store, KeyOf(cr, Volume(claim))), Live(Pass(u, c, cr, w).store, KeyOf(cr, Volume(claim)));
    TurnFacts(u, c, cr, w.store);
    ClaimSizeFor(t, claim);
    PassFulfils(u, c, cr, w, Volume(claim));
    PassOnClaim(u, c, cr, w, claim);
    GrownSize(before, after, SizeFor(cr.spec, claim), claim);
    DoneHoldsClaim(t, claim, before, after);
  }

  /** After any pass: the claims of each component are those of its own section of the resource. */
  lemma PassHoldsClaims(u: Setup, c: Chance, cr: Cr, w: World, claim: ClaimId)
    requires OnlyFills(u.admit) && Orders(c, cr) && NoRecords(cr.spec) && Counted(cr.spec)
    requires ClaimBelongs(cr.spec, claim) && Begins(Volume(claim), Live(w.store, KeyOf(cr, Volume(claim))))
    ensures var before, after := Live(w.store, KeyOf(cr, Volume(claim))), Live(Pass(u, c, cr, w).store, KeyOf(cr, Volume(claim)));
            && (claim.Telemetry? ==> HoldsClaim(before, after, cr.spec.storage, 10 * GIB))
            && (claim.Prometheus? ==> HoldsClaim(before, after, cr.spec.prometheusStorage, 10 * GIB))
            && (claim.Keeper? ==> HoldsClaim(before, after, cr.spec.clickhouse.keeperStorage, 10 * GIB))
            && (claim.Shard? ==> HoldsClaim(before, after, cr.spec.clickhouse.storage, 100 * GIB))
  {
    hide Pass, TurnOf, Orders, KeyOf, ClaimBelongs, HoldsClaim, Begins, StorageFor, Live, N.SameShape;
    TurnFacts(u, c, cr, w.store);
    SameSections(cr.spec, TurnOf(u, c, cr, w.store).after, claim);
    PassHoldsClaim(u, c, cr, w, claim);
  }

  lemma SameSections(spec: TelemetrySpec, after: TelemetrySpec, claim: ClaimId)
    requires N.SameShape(spec, after)
    ensures claim.Telemetry? ==> StorageFor(after, claim) == spec.storage
    ensures claim.Prometheus? ==> StorageFor(after, claim) == spec.prometheusStorage
    ensures claim.Keeper? ==> StorageFor(after, claim) == spec.clickhouse.keeperStorage
    ensures claim.Shard? ==> StorageFor(after, claim) == spec.clickhouse.storage
  {
    assert after.clickhouse.(s3 := None).storage == spec.clickhouse.(s3 := None).storage;
    assert after.clickhouse.(s3 := None).keeperStorage == spec.clickhouse.(s3 := None).keeperStorage;
  }


  // The telemetry service.

  function OrElse(port: int, default: int): int { if port != 0 then port else default }

  /** A named port is there if and only if it is asked for, with its number, to the container port of its
      name, and with its node port if one is asked for. */
  predicate OffersIff(spec: Tree, name: string, asked: bool, port: int, nodePort: int) {
    && (Member(Member(Some(spec), "ports"), name).Some? <==> asked)
    && (asked ==> Offers(spec, name, port, name) && (nodePort != 0 ==> NodePortIn(spec, name) == nodePort))
  }

  /** The service as the resource describes it. */
  ghost predicate HoldsService(asked: TelemetrySpec, spec: Tree) {
    var s := asked.service;
    && OffersIff(spec, "http", !asked.httpDisabled, OrElse(s.port, 8080), s.nodePort)
    && OffersIff(spec, "grpc", !asked.grpcDisabled, OrElse(s.grpcPort, 4317), s.grpcNodePort)
    && OffersIff(spec, "https", s.httpsPort != 0 || asked.tls.Some? || asked.httpDisabled, OrElse(s.httpsPort, 8443), s.httpsNodePort)
    && (forall n: string | Member(Member(Some(spec), "ports"), n).Some? :: n in {"http", "grpc", "https"})
    && (s.serviceType != "" ==> Member(Some(spec), "type") == Some(Leaf(Text(s.serviceType))))
  }

  predicate HasPort(ports: map<string, Port>, name: string, asked: bool, port: int, nodePort: int) {
    (name in ports <==> asked) && (asked ==> ports[name] == Port(port, name, nodePort))
  }

  function PortOf(p: E.ServicePort): Port { Port(p.port, p.targetPort, p.nodePort) }

  lemma ThreePorts(http: bool, grpc: bool, https: bool, a: E.ServicePort, b: E.ServicePort, c: E.ServicePort)
    ensures PortMap(E.Optionally(http, a) + E.Optionally(grpc, b) + E.Optionally(https, c))
            == var m: map<string, Port> := map[];
               var m := if http then m[a.name := PortOf(a)] else m;
               var m := if grpc then m[b.name := PortOf(b)] else m;
               if https then m[c.name := PortOf(c)] else m
  {
    hide PortMap;
    var xs, ys := E.Optionally(http, a), E.Optionally(grpc, b);
    PortMapAppend(xs + ys, c, https);
    PortMapAppend(xs, b, grpc);
    PortMapAppend([], a, http);
    assert [] + xs == xs;
    EmptyPortMap();
  }

  lemma EmptyPortMap()
    ensures PortMap([]) == map[]
  {
  }

  lemma PortMapAppend(ports: seq<E.ServicePort>, p: E.ServicePort, condition: bool)
    ensures PortMap(ports + E.Optionally(condition, p))
            == if condition then PortMap(ports)[p.name := PortOf(p)] else PortMap(ports)
  {
    if condition {
      assert (ports + [p])[..|ports|] == ports;
    } else {
      assert ports + [] == ports;
    }
  }

  lemma PortsAsked(spec: TelemetrySpec)
    ensures var m, s := PortMap(E.ServicePorts(spec)), spec.service;
            && HasPort(m, "http", !spec.httpDisabled, s.port, s.nodePort)
            && HasPort(m, "grpc", !spec.grpcDisabled, s.grpcPort, s.grpcNodePort)
            && HasPort(m, "https", s.httpsPort != 0, s.httpsPort, s.httpsNodePort)
            && m.Keys <= {"http", "grpc", "https"}
  {
    var s := spec.service;
    ThreePorts(!spec.httpDisabled, !spec.grpcDisabled, s.httpsPort != 0,
               E.ServicePort("http", s.port, "http", s.nodePort), E.ServicePort("grpc", s.grpcPort, "grpc", s.grpcNodePort),
               E.ServicePort("https", s.httpsPort, "https", s.httpsNodePort));
    hide PortMap;
  }

  lemma MeetsPort(spec: Tree, ports: map<string, Port>, name: string, asked: bool, number: int, port: int, nodePort: int)
    requires PortsMeet(spec, ports) && HasPort(ports, name, asked, number, nodePort) && (asked ==> number == port)
    ensures OffersIff(spec, name, asked, port, nodePort)
  {
    if asked {
      MetPortIsOffered(spec, ports, name);
    }
  }

  lemma DoneHoldsService(t: Turn, asked: TelemetrySpec, o: Resource)
    requires Done(t, TelemetryService, Some(o)) && N.SameShape(asked, t.after)
    ensures HoldsService(asked, o.spec)
  {
    hide PortMap, PortsMeet, OffersIff, HasPort, E.ServicePorts;
    var m, s := PortMap(E.ServicePorts(t.after)), t.after.service;
    PortsAsked(t.after);
    DoneServiceMeets(t, TelemetryService, Some(o));
    MeetsPort(o.spec, m, "http", !asked.httpDisabled, s.port, OrElse(asked.service.port, 8080), s.nodePort);
    MeetsPort(o.spec, m, "grpc", !asked.grpcDisabled, s.grpcPort, OrElse(asked.service.grpcPort, 4317), s.grpcNodePort);
    MeetsPort(o.spec, m, "https", s.httpsPort != 0, s.httpsPort, OrElse(asked.service.httpsPort, 8443), s.httpsNodePort);
    NoOtherPorts(o.spec, m);
    DoneType(t, o);
  }

  lemma NoOtherPorts(spec: Tree, ports: map<string, Port>)
    requires PortsMeet(spec, ports)
    ensures forall n: string | Member(Member(Some(spec), "ports"), n).Some? :: n in ports
  {
  }

  lemma DoneType(t: Turn, o: Resource)
    requires Done(t, TelemetryService, Some(o))
    ensures t.after.service.serviceType != "" ==> Member(Some(o.spec), "type") == Some(Leaf(Text(t.after.service.serviceType)))
  {
    hide PortsMeet, PortsFor;
    var base := ServiceBase(t.setup, RequestOf(t.cr), t.after.service, TelemetryService);
    assert t.after.service.serviceType != "" ==> "type" in base.members;
  }

  /** After any pass the telemetry service has the ports, the node ports and the type that the resource
      asks for. */
  lemma PassHoldsService(u: Setup, c: Chance, cr: Cr, w: World)
    requires OnlyFills(u.admit) && Orders(c, cr) && NoRecords(cr.spec) && Counted(cr.spec)
    requires cr.spec.agentsOnly.None? && Begins(TelemetryService, Live(w.store, KeyOf(cr, TelemetryService)))
    ensures var o := Live(Pass(u, c, cr, w).store, KeyOf(cr, TelemetryService));
            o.Some? && HoldsService(cr.spec, o.value.spec)
  {
    hide Pass, TurnOf, Orders, KeyOf, Begins, Done, HoldsService, N.SameShape;
    TurnFacts(u, c, cr, w.store);
    PassFulfils(u, c, cr, w, TelemetryService);
    var o := Live(Pass(u, c, cr, w).store, KeyOf(cr, TelemetryService));
    DoneIsLive(TurnOf(u, c, cr, w.store), TelemetryService, o);
    DoneHoldsService(TurnOf(u, c, cr, w.store), cr.spec, o.value);
  }

  // Annotations.

  predicate Carries(o: Resource, annotations: Annotations) {
    forall k | k in annotations :: k in o.annotations && o.annotations[k] == annotations[k]
  }

  lemma MutateCarries(o: Resource, name: string, desired: Desired, annotations: Annotations, g: Generator)
    requires MergesInto(desired) && LAST_APPLIED !in annotations
    ensures var m := Mutate(o, name, desired, annotations, g); m.Some? ==> Carries(m.value, annotations)
  {
    hide Merge, WithMember, KeepNodePorts, TargetSize;
  }

  lemma NothingOwned(annotations: Annotations)
    requires LAST_APPLIED !in annotations
    ensures SeenOnCreate(annotations) == annotations
  {
  }

  /** Readable objects are written with the annotations wanted, or have them already. */
  lemma EnsuredCarries(t: Turn, id: Id, o: Option<Resource>)
    requires OnlyFills(t.setup.admit) && Merges(id) && NoRecord(t, id) && Begins(id, o)
    ensures var y := EnsuredAs(t, id, AnnotationsFor(t, id), o); y.Some? && Carries(y.value, AnnotationsFor(t, id))
  {
    var annotations, key, desired := AnnotationsFor(t, id), KeyOf(t.cr, id), DesiredFor(t, id);
    var start := if o.Some? then o.value else Built(desired, annotations);
    var owned := Own(start, OwnerOf(t.cr), Retained(t.after, id));
    BuiltReadable(desired, annotations);
    MutateSucceeds(owned, key.name, desired, annotations, t.generate);
    DesiredMerges(t, id);
    MutateCarries(owned, key.name, desired, annotations, t.generate);
    NothingOwned(annotations);
    hide Mutate, DesiredFor, AnnotationsFor, Retained, Built, Own, KeyOf;
    var m := Mutate(owned, key.name, desired, annotations, t.generate).value;
    assert Filled(key, m, t.setup.admit(key, m));
  }

  lemma BuiltReadable(desired: Desired, annotations: Annotations)
    requires LAST_APPLIED !in annotations
    ensures OriginalOf(Built(desired, annotations).annotations).Known?
  {
  }

  lemma LastEvent(t: Turn, id: Id, o: Resource, events: seq<S.Event>)
    requires events != [] && PassesFor(t, id, events) && !id.Volume?
    ensures Some(S.Run(SettingOf(t, id), o, events))
            == EnsuredAs(t, id, AnnotationsFor(t, id), Some(S.Run(SettingOf(t, id), o, events[..|events| - 1])))
    ensures PassesFor(t, id, events[..|events| - 1])
  {
    hide S.Next, EnsuredAs, DesiredFor, AnnotationsFor, Retained;
    var prior, e := events[..|events| - 1], events[|events| - 1];
    assert IsPassFor(t, id, e);
    EnsuredIsEvent(t, id, e.annotations, S.Run(SettingOf(t, id), o, prior));
  }

  lemma RunBegins(t: Turn, id: Id, o: Resource, events: seq<S.Event>)
    requires OnlyFills(t.setup.admit) && PassesFor(t, id, events) && Begins(id, Some(o))
    ensures Begins(id, Some(S.Run(SettingOf(t, id), o, events)))
  {
    hide S.Next, Done, Begins, IsPassFor;
    if events != [] {
      RunIsDone(t, id, o, events);
      DoneBegins(t, id, Some(S.Run(SettingOf(t, id), o, events)));
    }
  }

  lemma StoryCarries(t: Turn, id: Id, before: Option<Resource>, after: Option<Resource>, annotations: Annotations, events: seq<S.Event>)
    requires OnlyFills(t.setup.admit) && Merges(id) && !id.Volume? && NoRecord(t, id)
    requires Story(t, id, before, after, annotations, events) && Begins(id, before)
    ensures after.Some? && Carries(after.value, AnnotationsFor(t, id))
  {
    hide EnsuredAs, Begins, Carries, AnnotationsFor, Merges, S.Next, Done;
    var start := if before.Some? then before else EnsuredAs(t, id, annotations, None);
    if before.None? {
      EnsuredCarries(t, id, None);
      StepIsDone(t, id, annotations, None);
      DoneBegins(t, id, start);
    }
    if events != [] {
      LastEvent(t, id, start.value, events);
      RunBegins(t, id, start.value, events[..|events| - 1]);
      EnsuredCarries(t, id, Some(S.Run(SettingOf(t, id), start.value, events[..|events| - 1])));
    }
  }

  /** The annotations a resource asks for are there, the class of its ingress among them under the older API. */
  predicate CarriesAsked(spec: TelemetrySpec, ingressV1: bool, id: Id, o: Resource) {
    match id
    case TelemetryService => Carries(o, spec.service.annotations)
    case Route =>
      spec.ingress.Some? ==>
        var ingress := spec.ingress.value;
        if ingress.className.Some? && !ingressV1
        then && Carries(o, ingress.annotations - {"kubernetes.io/ingress.class"})
             && Carries(o, map["kubernetes.io/ingress.class" := Plain(ingress.className.value)])
        else Carries(o, ingress.annotations)
    case _ => true
  }

  /** After any pass the telemetry service and the ingress carry the annotations the resource asks for. */
  lemma PassAnnotates(u: Setup, c: Chance, cr: Cr, w: World, id: Id)
    requires OnlyFills(u.admit) && Orders(c, cr) && NoRecords(cr.spec) && Counted(cr.spec)
    requires (id.TelemetryService? || id.Route?) && Belongs(cr, id) && Begins(id, Live(w.store, KeyOf(cr, id)))
    ensures var o := Live(Pass(u, c, cr, w).store, KeyOf(cr, id));
            o.Some? && CarriesAsked(cr.spec, u.ingressV1, id, o.value)
  {
    hide Pass, TurnOf, Orders, KeyOf, Begins, Story, Belongs, Carries, CarriesAsked, AnnotationsFor;
    var t := TurnOf(u, c, cr, w.store);
    TurnFacts(u, c, cr, w.store);
    NoRecordFor(t, id);
    var annotations, events := PassStory(u, c, cr, w, id);
    StoryCarries(t, id, Live(w.store, KeyOf(cr, id)), Live(Pass(u, c, cr, w).store, KeyOf(cr, id)), annotations, events);
    AnnotationsAsked(t, id, Live(Pass(u, c, cr, w).store, KeyOf(cr, id)).value);
  }

  lemma AnnotationsAsked(t: Turn, id: Id, o: Resource)
    requires N.SameShape(t.cr.spec, t.after) && Carries(o, AnnotationsFor(t, id))
    ensures CarriesAsked(t.cr.spec, t.setup.ingressV1, id, o)
  {
    var all := AnnotationsFor(t, id);
    if id.Route? && t.cr.spec.ingress.Some? {
      var ingress := t.cr.spec.ingress.value;
      assert ingress.className.Some? && !t.setup.ingressV1 ==>
          "kubernetes.io/ingress.class" in all && all["kubernetes.io/ingress.class"] == Plain(ingress.className.value);
    }
  }
}
