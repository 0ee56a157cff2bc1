/** Who listens where: the service, the container, the ingress, the probe and both agents each work the
    ports out for themselves. */
module Endpoints {
  import opened Naming
  import opened Spec
  import opened Validate
  import opened Normalised

  datatype ServicePort = ServicePort(name: string, port: int, targetPort: string, nodePort: int)

  function Optionally<T>(condition: bool, x: T): seq<T> { if condition then [x] else [] }

  function ServicePorts(spec: TelemetrySpec): seq<ServicePort> {
    Optionally(!spec.httpDisabled, ServicePort("http", spec.service.port, "http", spec.service.nodePort))
    + Optionally(!spec.grpcDisabled, ServicePort("grpc", spec.service.grpcPort, "grpc", spec.service.grpcNodePort))
    + Optionally(spec.service.httpsPort != 0, ServicePort("https", spec.service.httpsPort, "https", spec.service.httpsNodePort))
  }

  function ContainerPorts(spec: TelemetrySpec): seq<string> {
    Optionally(!spec.httpDisabled, "http")
    + Optionally(spec.service.httpsPort != 0, "https")
    + Optionally(!spec.grpcDisabled, "grpc")
  }

  function ProbePort(spec: TelemetrySpec): string {
    if spec.httpDisabled && spec.service.httpsPort != 0 then "https" else "http"
  }

  function IngressPort(spec: TelemetrySpec): string { if spec.httpDisabled then "https" else "http" }

  function AgentScheme(spec: TelemetrySpec): string {
    if spec.tls.Some? || spec.httpDisabled then "https" else "http"
  }

  function AgentPort(spec: TelemetrySpec): int {
    if spec.tls.Some? || spec.httpDisabled then spec.service.httpsPort else spec.service.port
  }

  function Printed(n: int): string { if n < 0 then "-" + Decimal(-n) else Decimal(n) }

  function ServiceURL(scheme: string, name: string, namespace: string, port: int): string {
    scheme + "://" + name + "-telemetry." + namespace + ":" + Printed(port)
  }

  /** The URL of both agents, unless they are given one. */
  function AgentURL(name: string, namespace: string, spec: TelemetrySpec): string {
    ServiceURL(AgentScheme(spec), name, namespace, AgentPort(spec))
  }

  /** What the telemetry container is told about Prometheus and ClickHouse of its own installation. */
  function PrometheusURL(name: string, namespace: string): string { "http://" + name + "-prometheus." + namespace + ":9090" }

  function ClickhouseAddress(name: string, namespace: string): string { name + "-clickhouse." + namespace + ":9000" }

  /** strings.TrimRight(s, "/") */
  function TrimSlashes(s: string): (r: string)
    ensures r <= s && (forall i | |r| <= i < |s| :: s[i] == '/')
    ensures r != "" ==> r[|r| - 1] != '/'
  {
    if s != "" && s[|s| - 1] == '/' then TrimSlashes(s[..|s| - 1]) else s
  }

  predicate HasOwnURL(spec: TelemetrySpec) { spec.agentsOnly.Some? && spec.agentsOnly.value != "" }

  predicate Exposes(ports: seq<ServicePort>, name: string, port: int) {
    exists i | 0 <= i < |ports| :: ports[i].name == name && ports[i].port == port
  }

  predicate Serves(ports: seq<ServicePort>, name: string) {
    exists i | 0 <= i < |ports| :: ports[i].name == name
  }

  predicate UniqueNames(ports: seq<ServicePort>) {
    forall i, j | 0 <= i < j < |ports| :: ports[i].name != ports[j].name
  }

  /** Ports with numbers and different names, that go to the container's ports, one each. */
  ghost predicate AreServed(ports: seq<ServicePort>, names: seq<string>) {
    && UniqueNames(ports)
    && (forall i | 0 <= i < |ports| :: ports[i].port != 0 && ports[i].targetPort in names)
    && (forall name: string :: name in names <==> Serves(ports, name))
  }

  /** Once validated, everybody agrees: the agents' scheme and port, the ingress backend and the probe
      are ports the service exposes and the container listens on. TLS may have been dropped on the way. */
  lemma EndpointsAgree(ctx: Context, spec: TelemetrySpec, generate: Generator)
    ensures var after := Normalise(ctx, spec, generate).0;
            var ports := ServicePorts(after);
            && Exposes(ports, AgentScheme(after), AgentPort(after)) && AgentPort(after) != 0
            && Serves(ports, IngressPort(after))
            && Serves(ports, ProbePort(after)) && ProbePort(after) in ContainerPorts(after)
            && AreServed(ports, ContainerPorts(after))
  {
    NormalisedIsWellFormed(ctx, spec, generate);
    ServingAgrees(Normalise(ctx, spec, generate).0);
  }

  lemma ServingAgrees(spec: TelemetrySpec)
    requires ServingOk(spec)
    ensures var ports := ServicePorts(spec);
            && Exposes(ports, AgentScheme(spec), AgentPort(spec)) && AgentPort(spec) != 0
            && Serves(ports, IngressPort(spec))
            && Serves(ports, ProbePort(spec)) && ProbePort(spec) in ContainerPorts(spec)
            && AreServed(ports, ContainerPorts(spec))
  {
    var ports := ServicePorts(spec);
    var http := if spec.httpDisabled then 0 else 1;
    var grpc := if spec.grpcDisabled then 0 else 1;
    if !spec.httpDisabled { assert ports[0].name == "http"; }
    if !spec.grpcDisabled { assert ports[http].name == "grpc"; }
    if spec.service.httpsPort != 0 { assert ports[http + grpc].name == "https"; }
    PortsAreServed(spec);
    hide AreServed;
  }

  lemma PortsAreServed(spec: TelemetrySpec)
    requires ServingOk(spec)
    ensures AreServed(ServicePorts(spec), ContainerPorts(spec))
  {
    PortNames(spec);
    hide Serves;
  }

  /** The names the service serves are exactly the container's. */
  lemma PortNames(spec: TelemetrySpec)
    ensures forall name: string :: Serves(ServicePorts(spec), name) <==> name in ContainerPorts(spec)
  {
    var ports, names := ServicePorts(spec), ContainerPorts(spec);
    var http := if spec.httpDisabled then 0 else 1;
    var grpc := if spec.grpcDisabled then 0 else 1;
    if !spec.httpDisabled { assert ports[0].name == "http" && names[0] == "http"; }
    if !spec.grpcDisabled { assert ports[http].name == "grpc" && names[|names| - 1] == "grpc"; }
    if spec.service.httpsPort != 0 { assert ports[http + grpc].name == "https" && names[http] == "https"; }
  }

  // The builders.

  method TelemetryServicePorts(spec: TelemetrySpec) returns (ports: seq<ServicePort>)
    ensures ports == ServicePorts(spec)
    ensures ServingOk(spec) ==> AreServed(ports, ContainerPorts(spec))
  {
    hide AreServed, ServingOk, ContainerPorts;
    ports := [];
    if !spec.httpDisabled {
      ports := ports + [ServicePort("http", spec.service.port, "http", spec.service.nodePort)];
    }
    if !spec.grpcDisabled {
      ports := ports + [ServicePort("grpc", spec.service.grpcPort, "grpc", spec.service.grpcNodePort)];
    }
    if spec.service.httpsPort != 0 {
      ports := ports + [ServicePort("https", spec.service.httpsPort, "https", spec.service.httpsNodePort)];
    }
    if ServingOk(spec) {
      ServingAgrees(spec);
    }
  }

  method TelemetryContainerPorts(spec: TelemetrySpec) returns (ports: seq<string>)
    ensures ports == ContainerPorts(spec)
    ensures ServingOk(spec) ==> AreServed(ServicePorts(spec), ports) && ProbePort(spec) in ports
  {
    hide AreServed, ServingOk, ServicePorts, ProbePort;
    ports := [];
    if !spec.httpDisabled {
      ports := ports + ["http"];
    }
    if spec.service.httpsPort != 0 {
      ports := ports + ["https"];
    }
    if spec.grpcDisabled {
    } else {
      ports := ports + ["grpc"];
    }
    if ServingOk(spec) {
      ServingAgrees(spec);
    }
  }

  /** The URL is that of a port the service exposes, under the scheme the port is named after, and the
      service sends it to a port the container names. */
  predicate ReachesService(url: string, name: string, namespace: string, spec: TelemetrySpec) {
    var ports := ServicePorts(spec);
    exists i | 0 <= i < |ports| ::
      && url == ports[i].name + "://" + name + "-telemetry." + namespace + ":" + Printed(ports[i].port)
      && ports[i].targetPort in ContainerPorts(spec)
  }

  lemma URLReachesService(name: string, namespace: string, spec: TelemetrySpec)
    requires ServingOk(spec)
    ensures ReachesService(AgentURL(name, namespace, spec), name, namespace, spec)
  {
    hide Printed, ServingOk, ContainerPorts, Serves;
    ServingAgrees(spec);
    var ports := ServicePorts(spec);
    var i :| 0 <= i < |ports| && ports[i].name == AgentScheme(spec) && ports[i].port == AgentPort(spec);
  }

  method NodeAgentURL(name: string, namespace: string, spec: TelemetrySpec) returns (url: string)
    ensures url == if HasOwnURL(spec) then TrimSlashes(spec.agentsOnly.value)
                   else AgentURL(name, namespace, spec)
    ensures ServingOk(spec) && !HasOwnURL(spec) ==> ReachesService(url, name, namespace, spec)
  {
    var scheme, port := "http", spec.service.port;
    if spec.tls.Some? || spec.httpDisabled {
      scheme := "https";
      port := spec.service.httpsPort;
    }
    url := ServiceURL(scheme, name, namespace, port);
    if spec.agentsOnly.Some? && spec.agentsOnly.value != "" {
      url := TrimSlashes(spec.agentsOnly.value);
    } else if ServingOk(spec) {
      URLReachesService(name, namespace, spec);
    }
  }

  method ClusterAgentURL(name: string, namespace: string, spec: TelemetrySpec) returns (url: string)
    ensures url == if HasOwnURL(spec) then spec.agentsOnly.value
                   else AgentURL(name, namespace, spec)
    ensures ServingOk(spec) && !HasOwnURL(spec) ==> ReachesService(url, name, namespace, spec)
  {
    var scheme, port := "http", spec.service.port;
    if spec.tls.Some? || spec.httpDisabled {
      scheme := "https";
      port := spec.service.httpsPort;
    }
    url := ServiceURL(scheme, name, namespace, port);
    if spec.agentsOnly.Some? && spec.agentsOnly.value != "" {
      url := spec.agentsOnly.value;
    } else if ServingOk(spec) {
      URLReachesService(name, namespace, spec);
    }
  }
}
